# A partial Sharp LR35902 core in Dafny

This project models the instruction executor of a partial Game Boy CPU core (the Sharp LR35902, a Z80-like 8-bit processor). It covers four parts:

- **Executor** (`src/cpu.rs`). A `CPU` object owns the register file and the four-flag record. Its `Execute` method updates A, C and the flags in place, one `match` arm per instruction. `CPU::add` is the 8-bit add that writes the flags as a side effect.
- **Register file** (`src/registers.rs`). Seven 8-bit registers, the BC pair view (`get_bc`, `set_bc`), and the lossless packing of the flag record into a byte. Z is bit 7, N bit 6, H bit 5, C bit 4.
- **Opcode decoder** (`src/instructions.rs`). `from_byte` maps two opcodes to `INC(BC)` and `INC(DE)`. Every other byte decodes to absent.
- **Memory bus** (`src/memorybus.rs`). A fixed array of 0xFFFF bytes with `read_byte` and an in-place `write`.

## Module layout

- `bits.dfy`, module `Bits`. Rust's `u8` and `u16` are bit-vectors `bv8` and `bv16`. The module holds the casts and the wrapping and overflowing adds the core uses. Its lemmas give the integer meaning of each, e.g. `overflowing_add` returns the sum modulo 256 and a flag that is set iff the sum exceeds 255.
- `registers.dfy`, module `Registers`.
  - `Registers` is a class whose fields `SetBc` updates in place.
  - `FlagsRegister` is a value datatype with its byte codec.
- `instructions.dfy`, module `Instructions`. The instruction datatype, the operand selectors and `FromByte`.
- `alu.dfy`, module `Alu`. The byte arithmetic of every `execute` arm, as pure functions of the operand value. Each function gets lemmas that state its result bit by bit or as an integer.
- `cpu.dfy`, module `Cpu`.
  - `Arm` gives what one arm of `execute` writes: A, C and the flags. `Exec` applies those writes to a state, so an arm cannot touch B, D, E, H or L.
  - `Run` calls `Exec` once per instruction of a program, in order. It is a driver of the model's own and has no counterpart in the source (see "## Left out").
  - The class `CPU` performs the step in place.
  - `CPU.Execute` is proved to leave exactly the state `Exec` describes.
  - Per-instruction lemmas state what each arm promises about `Exec`. Through `Execute`'s contract, they also hold of the in-place step.
- `memorybus.dfy`, module `MemoryBus`. The fixed-size array class, and a client method that composes writes and reads.

The source as shown does not compile. The model follows the evident intent of each expression:

- A `bool` used in `carry << 7` and `| carry` is the number 0 or 1.
- `result` in the AND, OR and XOR arms is the new A.
- `self.flags`, `self.flag` and `self.registers.flags` all name the CPU's one flag record.

The arms of ADD, ADC, AND, OR, XOR, INC, DEC, SRL, RR, RL, RRC, RLC, SRA, SLA and SWAP read their operand from register C, as the source does. The `ArithmeticTarget` operand of AND, OR, XOR and ADC is ignored, and ADD, INC and DEC act only on C. RRA, RLA, RRCA, RLCA and CPL act on A. BIT, SET and RESET act on A with the bit index in C. CCF and SCF have no operand.

Where the code differs from the LR35902 hardware, the model follows the code, with one exception: ADC. The code's ADC (src/cpu.rs:20-25) is evidently a mistake. The executor runs the corrected three-term addition, and the code as written is modelled beside it, see "## Findings". The other differences, all followed as written:

- INC and DEC (src/cpu.rs:71-88) leave every flag unchanged. On the hardware, INC sets Z, clears N and sets H on a carry out of bit 3; DEC sets Z, sets N and sets H on a borrow from bit 4.
- CPL (src/cpu.rs:119-122) changes no flag. On the hardware it sets N and H.
- CCF and SCF (src/cpu.rs:89-96) write only the carry. On the hardware they also clear N and H.
- RLCA, RRCA, RLA and RRA (src/cpu.rs:97-118) write only the carry flag. On the hardware they also clear Z, N and H.
- BIT, SET and RESET (src/cpu.rs:123-139) act on A with the bit index in C. On the hardware each names a register and takes its bit index from the opcode.

## Model

| member | source | states |
|---|---|---|
| Bits.Widen | src/registers.rs:13 | zero extension `x as u16` keeps the integer value |
| Bits.Low | src/registers.rs:18 | the truncating cast `value as u8` is the value modulo 256 |
| Bits.High | src/registers.rs:17 | `(value >> 8) as u8` is the value divided by 256 |
| Bits.Join | src/registers.rs:13 | `(hi as u16) << 8 \| lo as u16` is hi·256 + lo |
| Bits.JoinHighLow | src/registers.rs:12-19 | splitting a word into its high and low bytes and joining them gives the word back |
| Bits.HighLowJoin | src/registers.rs:12-19 | joining two bytes and splitting the word gives both bytes back |
| Bits.OverflowingAddValue | src/cpu.rs:229 | `overflowing_add` gives the sum modulo 256, and its overflow flag is set iff the integer sum exceeds 255 |
| Bits.WrappingAdd | src/cpu.rs:75 | subtracting the addend from the wrapping sum gives the first operand back |
| Bits.WrappingSub | src/cpu.rs:84 | adding the subtrahend to the wrapping difference gives the first operand back |
| Bits.WrappingValue | src/cpu.rs:71-88 | `wrapping_add` and `wrapping_sub` are the integer sum and difference modulo 256 |
| Bits.WrappingIncDec | src/cpu.rs:71-88 | wrapping decrement undoes wrapping increment, and the other way round |
| Alu.CarryOutBits | src/cpu.rs:100-116 | `x & 0x80 != 0` is bit 7 and `x & 1 != 0` is bit 0 |
| Alu.Add | src/cpu.rs:228-238 | Z is set iff the wrapped sum is 0, and N is clear |
| Alu.AddSum | src/cpu.rs:229-235 | the add's value is (A + value) mod 256; C is set iff A + value > 255; H is set iff the low nibbles of the old A and the value sum above 15 |
| Alu.AddExamples | src/cpu.rs:229-235 | 0x0F + 0x01 gives 0x10 with only H set; 0xFF + 0x01 gives 0x00 with Z, H and C set |
| Alu.AdcAsWritten | src/cpu.rs:20-25 | ADC as written: its flags are those of the plain add A + C |
| Alu.AdcAsWrittenSum | src/cpu.rs:20-25 | ADC as written stores ((A + C) mod 256 + the carry out of that sum) mod 256 |
| Alu.AdcAsWrittenDiffers | src/cpu.rs:20-25 | as written, 0xFF + 0x01 with no carry in stores 0x01, not 0x00, while Z is set; a carry in of 1 is ignored; the half carry misses the carry in |
| Alu.Adc | src/cpu.rs:20-25 | corrected ADC, one three-term sum: Z is set iff the result is 0, and N is clear |
| Alu.AdcSum | src/cpu.rs:20-25 | corrected ADC stores (A + C + carry) mod 256; C is set iff that sum exceeds 255; H is set iff the low nibbles plus the carry exceed 15 |
| Alu.AdcWithoutCarryIsAdd | src/cpu.rs:20-25 | with the carry clear, corrected ADC is exactly the add |
| Alu.And | src/cpu.rs:38-46 | AND: Z is set iff the new A is 0; N and C are clear and H is set |
| Alu.Or | src/cpu.rs:47-55 | OR: Z is set iff the new A is 0; N, H and C are clear |
| Alu.Xor | src/cpu.rs:56-64 | XOR: Z is set iff the new A is 0; N, H and C are clear |
| Alu.LogicBits | src/cpu.rs:38-64 | bit i of the AND, OR and XOR results is the conjunction, disjunction and difference of bit i of the operands |
| Alu.XorSelf | src/cpu.rs:56-64 | XOR of a byte with itself gives 0 with only Z set |
| Alu.Complement | src/cpu.rs:121 | the complement shares no bit with A, and together they cover all eight bits |
| Alu.ComplementBits | src/cpu.rs:119-122 | CPL inverts every bit of A |
| Alu.ComplementTwice | src/cpu.rs:119-122 | complementing twice gives the byte back |
| Alu.RotateLeft | src/cpu.rs:114-118 | the left rotate moves bit 7 into bit 0 |
| Alu.RotateRight | src/cpu.rs:109-113 | the right rotate moves bit 0 into bit 7 |
| Alu.RotateLeftThrough | src/cpu.rs:103-108 | the left rotate through carry puts the old carry in bit 0 |
| Alu.RotateRightThrough | src/cpu.rs:97-102 | the right rotate through carry puts the old carry in bit 7 |
| Alu.ShiftLeft | src/cpu.rs:206-214 | the left shift clears bit 0 |
| Alu.ShiftRightArithmetic | src/cpu.rs:197-205 | the arithmetic right shift keeps bit 7 |
| Alu.ShiftRightLogical | src/cpu.rs:150-158 | the logical right shift clears bit 7 |
| Alu.LeftBits | src/cpu.rs:103-118 | every left rotate and the left shift move each bit i-1 to bit i |
| Alu.RightBits | src/cpu.rs:97-113 | every right rotate and both right shifts move each bit i+1 to bit i |
| Alu.SwapNibbles | src/cpu.rs:218 | the high nibble of the result is the operand's low nibble, and its low nibble is the operand's high nibble |
| Alu.SwapNibblesBits | src/cpu.rs:215-223 | bit i of the swapped byte is bit (i + 4) mod 8 of the operand |
| Alu.RotateLeftRightInverse | src/cpu.rs:109-118 | the plain left and right rotates undo each other |
| Alu.RotateThroughInverse | src/cpu.rs:97-108 | rotating through carry and back, with the bit moved out as the new carry, restores the byte and the carry |
| Alu.SwapNibblesTwice | src/cpu.rs:215-223 | swapping twice gives the byte back |
| Alu.Rlca | src/cpu.rs:114-118 | RLCA changes only the carry flag, which becomes the old bit 7 |
| Alu.Rrca | src/cpu.rs:109-113 | RRCA changes only the carry flag, which becomes the old bit 0 |
| Alu.Rla | src/cpu.rs:103-108 | RLA: the carry becomes the old bit 7, the old carry enters bit 0, and no other flag moves |
| Alu.Rra | src/cpu.rs:97-102 | RRA: the carry becomes the old bit 0, the old carry enters bit 7, and no other flag moves |
| Alu.RlaRraInverse | src/cpu.rs:97-108 | RLA then RRA, and RRA then RLA, restore both A and the whole flag record |
| Alu.Rlc | src/cpu.rs:188-196 | RLC: the left rotate; Z is set iff the result is 0, N and H are clear, C is the old bit 7 |
| Alu.Rrc | src/cpu.rs:179-187 | RRC: the right rotate; Z is set iff the result is 0, N and H are clear, C is the old bit 0 |
| Alu.Rl | src/cpu.rs:169-178 | RL: the left rotate through carry, with the same flags as RLC |
| Alu.Rr | src/cpu.rs:159-168 | RR: the right rotate through carry, with the same flags as RRC |
| Alu.Sla | src/cpu.rs:206-214 | SLA: the left shift; Z is set iff the result is 0, N and H are clear, C is the old bit 7 |
| Alu.Sra | src/cpu.rs:197-205 | SRA: the arithmetic right shift; Z is set iff the result is 0, N and H are clear, C is the old bit 0 |
| Alu.Srl | src/cpu.rs:150-158 | SRL: the logical right shift; Z is set iff the result is 0, N and H are clear, C is the old bit 0 |
| Alu.Swap | src/cpu.rs:215-223 | SWAP: the nibble exchange; Z is set iff the result is 0, and N, H and C are clear |
| Alu.RotateZeroIffOperandZero | src/cpu.rs:159-223 | RLC, RRC and SWAP set Z iff the operand is 0; RL and RR set Z iff the bits kept and the carry in are all 0 |
| Alu.TestBit | src/cpu.rs:123-129 | BIT: Z is set iff bit n of A is 0, N is clear, H is set, the carry is kept |
| Alu.SetBit | src/cpu.rs:135-139 | SET sets bit n |
| Alu.ResetBit | src/cpu.rs:130-134 | RESET clears bit n |
| Alu.SetResetOtherBits | src/cpu.rs:130-139 | SET and RESET leave the other seven bits unchanged |
| Alu.TestBitAfterSetReset | src/cpu.rs:123-139 | BIT after SET reports 1; BIT after RESET reports 0 |
| Alu.SetResetSameBit | src/cpu.rs:130-139 | of SET and RESET on one bit, the later one decides |
| Registers.Registers.constructor | src/registers.rs:1-9 | the register file holds the given seven values |
| Registers.Registers.GetBc | src/registers.rs:12-14 | `get_bc` is b·256 + c |
| Registers.Registers.SetBc | src/registers.rs:16-19 | `set_bc(v)` sets b to v / 256 and c to v mod 256; `get_bc` then returns v; a, d, e, h and l are unchanged |
| Registers.SetBcOfGetBc | src/registers.rs:12-19 | `set_bc(get_bc())` in place leaves all seven registers as they were |
| Registers.FlagsToByte | src/registers.rs:38-45 | the encoded byte has Z at bit 7, N at bit 6, H at bit 5, C at bit 4, and bits 3-0 clear |
| Registers.ByteToFlags | src/registers.rs:47-61 | decoding reads Z, N, H and C from bits 7, 6, 5 and 4 |
| Registers.ByteToFlagsOfFlagsToByte | src/registers.rs:38-61 | decoding an encoded record gives the record back, for all 16 records |
| Registers.FlagsToByteOfByteToFlags | src/registers.rs:38-61 | encoding a decoded byte b gives b & 0xF0 |
| Registers.FlagsToByteInjective | src/registers.rs:38-45 | two records encode to the same byte iff they are equal |
| Instructions.FromByte | src/instructions.rs:10-16 | a byte decodes iff it is 0x02 or 0x13, and what it decodes to is an INC |
| Instructions.FromByteIncBc | src/instructions.rs:12 | 0x02 decodes to INC(BC) |
| Instructions.FromByteIncDe | src/instructions.rs:13 | 0x13 decodes to INC(DE) |
| Instructions.FromByteUnmapped | src/instructions.rs:14 | every other byte decodes to None, not to a failure |
| Instructions.FromByteTable | src/instructions.rs:10-16 | the whole table: FromByte(b) is Some(i) iff (b, i) is (0x02, INC(BC)) or (0x13, INC(DE)) |
| Instructions.ArithmeticTargetsExactlySeven | src/instructions.rs:5-7 | every target is one of seven distinct registers A, B, C, D, E, H, L |
| Cpu.CPU.Add | src/cpu.rs:228-238 | `CPU::add` writes exactly the flags of `Alu.Add` for the old A and the value, returns its wrapped sum, and does not write A |
| Cpu.CPU.Execute | src/cpu.rs:2-226 | one step in place leaves the registers and flags equal to `Exec` of the old state |
| Cpu.CPU.ExecuteAdd | src/cpu.rs:4-25 | the ADD and ADC arms leave the state `Exec` describes |
| Cpu.CPU.ExecuteLogic | src/cpu.rs:38-64 | the AND, OR and XOR arms leave the state `Exec` describes |
| Cpu.CPU.ExecuteIncDec | src/cpu.rs:71-88 | the INC and DEC arms leave the state `Exec` describes |
| Cpu.CPU.ExecuteFlags | src/cpu.rs:89-122 | the CCF, SCF and CPL arms leave the state `Exec` describes |
| Cpu.CPU.ExecuteRotateA | src/cpu.rs:97-118 | the RRA, RLA, RRCA and RLCA arms leave the state `Exec` describes |
| Cpu.CPU.ExecuteBit | src/cpu.rs:123-139 | with C below 8, the BIT, RESET and SET arms leave the state `Exec` describes |
| Cpu.CPU.ExecuteShift | src/cpu.rs:150-223 | the SRL, SRA, SLA and SWAP arms leave the state `Exec` describes |
| Cpu.CPU.ExecuteRotate | src/cpu.rs:159-196 | the RR, RL, RRC and RLC arms leave the state `Exec` describes |
| Cpu.ExecAddC | src/cpu.rs:4-13 | ADD C: A becomes (A + C) mod 256 and no other register changes; Z is set iff the new A is 0; N is clear; C is set iff A + C > 255; H is set iff the low nibbles of the old A and C sum above 15 |
| Cpu.ExecAddOtherTarget | src/cpu.rs:11 | ADD of any target but C changes nothing |
| Cpu.ExecAdc | src/cpu.rs:20-25 | corrected ADC: A becomes (A + C + carry) mod 256 and no other register changes, with the flags of that one sum |
| Cpu.ExecAnd | src/cpu.rs:38-46 | AND: only A and the flags change; each bit of A is the AND of the old bits of A and C; Z is set iff the new A is 0, H is set, N and C are clear |
| Cpu.ExecOr | src/cpu.rs:47-55 | OR: only A and the flags change; each bit is the OR of the old bits; Z is set iff the new A is 0, and the rest are clear |
| Cpu.ExecXor | src/cpu.rs:56-64 | XOR: only A and the flags change; each bit is the XOR of the old bits; Z is set iff the new A is 0, and the rest are clear |
| Cpu.ExecIncC | src/cpu.rs:71-79 | INC C: C becomes (C + 1) mod 256 and nothing else changes, the flags included |
| Cpu.ExecDecC | src/cpu.rs:80-88 | DEC C: C becomes (C - 1) mod 256 and nothing else changes, the flags included |
| Cpu.ExecIncDecWrap | src/cpu.rs:71-88 | INC takes 0xFF to 0x00 and DEC takes 0x00 to 0xFF |
| Cpu.ExecIncDecInverse | src/cpu.rs:71-88 | DEC C after INC C restores the whole state, and so does INC C after DEC C |
| Cpu.ExecIncDecOtherTarget | src/cpu.rs:71-88 | INC and DEC of any target but C, BC and DE included, change nothing |
| Cpu.ExecCcf | src/cpu.rs:89-92 | CCF negates the carry and changes nothing else |
| Cpu.ExecScf | src/cpu.rs:93-96 | SCF sets the carry and changes nothing else |
| Cpu.ExecCpl | src/cpu.rs:119-122 | CPL inverts every bit of A and changes nothing else |
| Cpu.ExecCcfCplTwice | src/cpu.rs:89-122 | CCF twice and CPL twice restore the state; SCF twice is SCF once |
| Cpu.ExecRlca | src/cpu.rs:114-118 | RLCA: only A and the carry change; the carry and the new bit 0 are the old bit 7; every other bit moves up one place |
| Cpu.ExecRrca | src/cpu.rs:109-113 | RRCA: only A and the carry change; the carry and the new bit 7 are the old bit 0; every other bit moves down one place |
| Cpu.ExecRla | src/cpu.rs:103-108 | RLA: only A and the carry change; the carry is the old bit 7 and the old carry enters bit 0 |
| Cpu.ExecRra | src/cpu.rs:97-102 | RRA: only A and the carry change; the carry is the old bit 0 and the old carry enters bit 7 |
| Cpu.ExecRlcaRrcaInverse | src/cpu.rs:109-118 | RLCA and RRCA undo each other on the registers |
| Cpu.ExecRlaThenRra | src/cpu.rs:97-108 | RLA followed by RRA restores A and the carry, and so the whole state |
| Cpu.ExecRraThenRla | src/cpu.rs:97-108 | RRA followed by RLA restores the whole state |
| Cpu.ExecRlc | src/cpu.rs:188-196 | RLC on C: only C and the flags change; Z is set iff the new C is 0; N and H are clear; the carry and the new bit 0 are the old bit 7 |
| Cpu.ExecRrc | src/cpu.rs:179-187 | RRC on C: as RLC, mirrored; the carry and the new bit 7 are the old bit 0 |
| Cpu.ExecRl | src/cpu.rs:169-178 | RL on C: only C and the flags change; the carry is the old bit 7 and the old carry enters bit 0 |
| Cpu.ExecRr | src/cpu.rs:159-168 | RR on C: only C and the flags change; the carry is the old bit 0 and the old carry enters bit 7 |
| Cpu.ExecSla | src/cpu.rs:206-214 | SLA on C: bit 0 is cleared, the other bits move up, and the carry is the old bit 7 |
| Cpu.ExecSra | src/cpu.rs:197-205 | SRA on C: bit 7 is kept, the other bits move down, and the carry is the old bit 0 |
| Cpu.ExecSrl | src/cpu.rs:150-158 | SRL on C: bit 7 is cleared, the other bits move down, and the carry is the old bit 0 |
| Cpu.ExecSwap | src/cpu.rs:215-223 | SWAP on C exchanges the nibbles; Z is set iff the result is 0; N, H and C are clear |
| Cpu.ExecSwapTwice | src/cpu.rs:215-223 | SWAP twice restores the registers |
| Cpu.ExecBit | src/cpu.rs:123-129 | BIT with C below 8: Z is set iff bit C of A is 0, N is clear, H is set; the carry and every register are unchanged |
| Cpu.ExecSet | src/cpu.rs:135-139 | SET with C below 8 sets bit C of A; the other bits, the other registers and the flags are unchanged |
| Cpu.ExecReset | src/cpu.rs:130-134 | RESET with C below 8 clears bit C of A; the other bits, the other registers and the flags are unchanged |
| Cpu.ArmKeepsA | src/cpu.rs:2-226 | the arms of INC, DEC, CCF, SCF, BIT and the shifts and rotates of C leave A as it was |
| Cpu.ArmKeepsC | src/cpu.rs:2-226 | every arm that does not store into C leaves C as it was, so no arm writes both A and C |
| Cpu.ArmKeepsFlags | src/cpu.rs:2-226 | the arms of INC, DEC, CPL, SET and RESET write no flag |
| Cpu.Arm | src/cpu.rs:2-226 | one arm per instruction; every arm but ADC writes A, C and the flags as its source arm does, and ADC runs the corrected sum (see Findings); `Cpu.ArmKeepsA`, `Cpu.ArmKeepsC` and `Cpu.ArmKeepsFlags` state what each leaves alone |
| Cpu.Exec | src/cpu.rs:2-226 | whatever the instruction, one step changes only A, C and the flags |
| Cpu.Run | src/cpu.rs:2-226 | `execute` called once per instruction, in order, never changes B, D, E, H or L |
| MemoryBus.MemoryBus.constructor | src/memorybus.rs:1-3 | the bus holds exactly 0xFFFF cells, all 0 |
| MemoryBus.MemoryBus.ReadByte | src/memorybus.rs:6-8 | for an address below 0xFFFF, reading gives the stored cell and modifies nothing |
| MemoryBus.MemoryBus.Write | src/memorybus.rs:10-12 | after a write, reading the address gives the value, and every other cell is unchanged |
| MemoryBus.WriteThenRead | src/memorybus.rs:6-12 | a read after a write sees the written value; of two writes to one address the later one stays; no other cell changes |

## Left out

- ADDHL (src/cpu.rs:14-19) is not modelled. It feeds register C through the 8-bit add and assigns to a field that does not exist, so it has no coherent 16-bit meaning.
- SUB, SBC and CP (src/cpu.rs:26-37, 65-70) are not modelled. They call a `sub` helper that is not part of this model. SBC also repeats the after-the-fact carry pattern of ADC.
- The `Instruction` datatype therefore has no ADDHL, SUB, SBC or CP variant, although `execute` matches on all four (src/cpu.rs:14, 26, 32, 65).
- The second RESET and SET arms (src/cpu.rs:140-149) are unreachable stubs and are not modelled.
- The catch-all arm (src/cpu.rs:224) is a no-op for instructions the datatype does not contain, so the datatype simply has no such instructions.
- Some arms do nothing: ADD of a target other than C (src/cpu.rs:11), and INC or DEC of a target other than register C (src/cpu.rs:77, 86). These are modelled as steps that change nothing, with that stated by `Cpu.ExecAddOtherTarget` and `Cpu.ExecIncDecOtherTarget`. The decoder's INC(BC) and INC(DE) therefore execute as no-ops.
- Not modelled because the code does not contain them: the fetch, decode and execute driver, the extended table behind the 0xCB prefix, the program counter, instruction lengths, cycle counts and interrupts. The only decoder is the one-byte `from_byte` the code has.
- `Cpu.Run` strings `execute` calls together as a driver would. It is the model's own scaffolding, not a function of the source, and it does no fetch, decode or program-counter update, because the code has no driver.
- BIT, SET and RESET require C below 8. On larger values, Rust's `1 << value` on a `u8` is an overflow, so the model does not execute them there.
- Cpu.CPU.ExecuteLogic, Cpu.CPU.ExecuteShift and Cpu.CPU.ExecuteRotate each write the four flag fields in one record update, where the source assigns them one at a time. No flag is read between those assignments, so the resulting state is the same. `Cpu.CPU.Add` keeps the source's one-at-a-time order.
- Cpu.Arm: its ADC arm, which `Cpu.Exec` and `Cpu.Run` use, is `Alu.Adc`, the corrected three-term addition, and not `Alu.AdcAsWritten`. So the value-level step does not reproduce the code's ADC as written.
- Cpu.CPU.ExecuteAdd: the ADC arm performs the corrected three-term addition, not the code as written. The as-written behaviour is `Alu.AdcAsWritten`, see Findings.
- MemoryBus.MemoryBus.ReadByte and MemoryBus.MemoryBus.Write require an address below 0xFFFF. The array has 0xFFFF cells (src/memorybus.rs:2), so an access at 0xFFFF is out of bounds and the Rust code panics there.
- The source never constructs a `MemoryBus`. The zero fill in `MemoryBus.MemoryBus.constructor` is a modelling choice.
- The LR35902 flag effects of INC, DEC, CPL, CCF, SCF and the four A-rotates, where they differ from the code, as listed above. The model follows the code.

## Findings

| source | as written | input that shows it | evidently intended | confidence | as-written member | corrected member |
|---|---|---|---|---|---|---|
| src/cpu.rs:20-25 | ADC computes the flags of the plain add A + C. It then stores that sum plus the carry the add just produced. The carry held before the instruction is never read. | A = 0xFF, C = 0x01, carry clear: stores 0x01 instead of 0x00, yet sets Z. A = 0x00, C = 0x00, carry set: stores 0x00 instead of 0x01. | one three-term addition A + C + carry-in, with Z, H and C derived from that sum | not executed | Alu.AdcAsWritten, Alu.AdcAsWrittenSum, Alu.AdcAsWrittenDiffers | Alu.Adc, Alu.AdcSum, Cpu.ExecAdc |
