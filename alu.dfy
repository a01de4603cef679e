/** The byte arithmetic of the executor (src/cpu.rs), one function per kind of
    step: the 8-bit add, the logic operations, rotates and shifts, nibble swap
    and single-bit operations. Each takes its operand as a value, so the results
    hold for whichever register feeds it. */
module Alu {
  import opened Bits
  import opened Registers

  /** The byte a step writes back and the flags record after it. */
  datatype Outcome = Outcome(value: Byte, flags: FlagsRegister)

  /** The bit a left shift or rotate moves out: bit 7. */
  predicate HighBit(x: Byte)
  {
    x & 0x80 != 0
  }

  /** The bit a right shift or rotate moves out: bit 0. */
  predicate LowBit(x: Byte)
  {
    x & 1 != 0
  }

  lemma CarryOutBits(x: Byte)
    ensures HighBit(x) == BitAt(x, 7) && LowBit(x) == BitAt(x, 0)
  {
  }

  // ---------------------------------------------------------------------------
  // Addition

  /** `CPU::add`: the wrapped sum and all four flags, written from the old A.
      `AddSum` states what the sum and the carries are as integers. */
  function Add(a: Byte, value: Byte): (r: Outcome)
    ensures r.flags.zero <==> r.value == 0
    ensures !r.flags.subtract
  {
    var (newValue, didOverflow) := OverflowingAdd(a, value);
    Outcome(newValue, FlagsRegister(
      zero := newValue == 0,
      subtract := false,
      halfCarry := (a & 0xF) + (value & 0xF) > 0xF,
      carry := didOverflow))
  }

  /** The add as integers: the value is the sum modulo 256, the carry is set iff
      the sum exceeds 255, the half carry iff the low nibbles sum above 15. */
  lemma AddSum(a: Byte, value: Byte)
    ensures Add(a, value).value as int == (a as int + value as int) % 256
    ensures Add(a, value).flags.carry <==> a as int + value as int > 255
    ensures Add(a, value).flags.halfCarry <==> a as int % 16 + value as int % 16 > 15
  {
    OverflowingAddValue(a, value);
    NibbleCarryValue(a, value, false);
  }

  /** The two boundary cases: a carry out of the low nibble only, and a sum that
      wraps to zero with every carry set. */
  lemma AddExamples()
    ensures Add(0x0F, 0x01) == Outcome(0x10, FlagsRegister(false, false, true, false))
    ensures Add(0xFF, 0x01) == Outcome(0x00, FlagsRegister(true, false, true, true))
  {
  }

  /** ADC as the source writes it: the flags come from the plain sum, and the
      carry that is then added to the stored result is the one that sum just
      produced; the carry flag held before the instruction is never read. */
  function AdcAsWritten(a: Byte, value: Byte): (r: Outcome)
    ensures r.flags == Add(a, value).flags
  {
    var sum := Add(a, value);
    Outcome(WrappingAdd(sum.value, BoolByte(sum.flags.carry)), sum.flags)
  }

  /** The as-written value: the wrapped plain sum plus the carry out of it. */
  lemma AdcAsWrittenSum(a: Byte, value: Byte)
    ensures AdcAsWritten(a, value).value as int
      == ((a as int + value as int) % 256 + BoolInt(Add(a, value).flags.carry)) % 256
  {
    AddSum(a, value);
    WrappingValue(Add(a, value).value, BoolByte(Add(a, value).flags.carry));
  }

  /** Add with carry as one three-term addition: the carry held before the
      instruction is part of the sum the flags are derived from. */
  function Adc(a: Byte, value: Byte, carryIn: bool): (r: Outcome)
    ensures r.flags.zero <==> r.value == 0
    ensures !r.flags.subtract
  {
    var wide := (a as bv16) + (value as bv16) + (BoolByte(carryIn) as bv16);
    var result := Low(wide);
    Outcome(result, FlagsRegister(
      zero := result == 0,
      subtract := false,
      halfCarry := (a & 0xF) + (value & 0xF) + BoolByte(carryIn) > 0xF,
      carry := wide > 0xFF))
  }

  /** The three-term sum as integers: the value is the sum modulo 256, the
      carry is set iff it exceeds 255, the half carry iff the low nibbles and the
      carry in sum above 15. */
  lemma AdcSum(a: Byte, value: Byte, carryIn: bool)
    ensures Adc(a, value, carryIn).value as int == (a as int + value as int + BoolInt(carryIn)) % 256
    ensures Adc(a, value, carryIn).flags.carry <==> a as int + value as int + BoolInt(carryIn) > 255
    ensures Adc(a, value, carryIn).flags.halfCarry
      <==> a as int % 16 + value as int % 16 + BoolInt(carryIn) > 15
  {
    WideSumValue(a, value, carryIn);
    NibbleCarryValue(a, value, carryIn);
  }

  /** The as-written ADC adds the carry twice when the plain sum overflows, and
      ignores the carry held before the instruction. */
  lemma AdcAsWrittenDiffers()
    ensures AdcAsWritten(0xFF, 0x01).value == 0x01 && Adc(0xFF, 0x01, false).value == 0x00
    ensures AdcAsWritten(0xFF, 0x01).flags.zero
    ensures AdcAsWritten(0x00, 0x00).value == 0x00 && Adc(0x00, 0x00, true).value == 0x01
    ensures !AdcAsWritten(0x0F, 0x00).flags.halfCarry && Adc(0x0F, 0x00, true).flags.halfCarry
  {
    assert Add(0xFF, 0x01).flags.carry;
  }

  /** With no carry in, add with carry is the plain add. */
  lemma AdcWithoutCarryIsAdd(a: Byte, value: Byte)
    ensures Adc(a, value, false) == Add(a, value)
  {
    var p, q := Adc(a, value, false), Add(a, value);
    AdcSum(a, value, false);
    AddSum(a, value);
    ByteOfValue(p.value, q.value);
  }

  // ---------------------------------------------------------------------------
  // Logic operations

  /** AND: bitwise conjunction; Z iff the result is 0, and H set. */
  function And(a: Byte, value: Byte): (r: Outcome)
    ensures r.flags == FlagsRegister(r.value == 0, false, true, false)
  {
    var result := a & value;
    Outcome(result, FlagsRegister(result == 0, false, true, false))
  }

  /** OR: bitwise disjunction; Z iff the result is 0, every other flag clear. */
  function Or(a: Byte, value: Byte): (r: Outcome)
    ensures r.flags == FlagsRegister(r.value == 0, false, false, false)
  {
    var result := a | value;
    Outcome(result, FlagsRegister(result == 0, false, false, false))
  }

  /** XOR: bitwise difference; Z iff the result is 0, every other flag clear. */
  function Xor(a: Byte, value: Byte): (r: Outcome)
    ensures r.flags == FlagsRegister(r.value == 0, false, false, false)
  {
    var result := a ^ value;
    Outcome(result, FlagsRegister(result == 0, false, false, false))
  }

  /** Bit by bit, the three results are the conjunction, the disjunction and
      the difference of the operands' bits. */
  lemma LogicBits(a: Byte, value: Byte)
    ensures forall i: Byte :: i < 8 ==> (BitAt(And(a, value).value, i) <==> BitAt(a, i) && BitAt(value, i))
    ensures forall i: Byte :: i < 8 ==> (BitAt(Or(a, value).value, i) <==> BitAt(a, i) || BitAt(value, i))
    ensures forall i: Byte :: i < 8 ==> (BitAt(Xor(a, value).value, i) <==> BitAt(a, i) != BitAt(value, i))
  {
    forall i: Byte | i < 8
      ensures BitAt(Or(a, value).value, i) <==> BitAt(a, i) || BitAt(value, i)
    {
    }
  }

  /** A byte XORed with itself is 0, so XOR A clears A and sets Z. */
  lemma XorSelf(a: Byte)
    ensures Xor(a, a) == Outcome(0, FlagsRegister(true, false, false, false))
  {
  }

  /** CPL: every bit of A inverted. */
  function Complement(a: Byte): (r: Byte)
    ensures r & a == 0 && r | a == 0xFF
  {
    !a
  }

  lemma ComplementBits(a: Byte)
    ensures forall i: Byte :: i < 8 ==> BitAt(Complement(a), i) == !BitAt(a, i)
  {
  }

  lemma ComplementTwice(a: Byte)
    ensures Complement(Complement(a)) == a
  {
  }

  // ---------------------------------------------------------------------------
  // Rotates and shifts on a byte

  /** `(x << 1) | (x >> 7)`: every bit one place up, bit 7 into bit 0. */
  function RotateLeft(x: Byte): (r: Byte)
    ensures BitAt(r, 0) == BitAt(x, 7)
  {
    (x << 1) | (x >> 7)
  }

  /** `(x >> 1) | (x << 7)`: every bit one place down, bit 0 into bit 7. */
  function RotateRight(x: Byte): (r: Byte)
    ensures BitAt(r, 7) == BitAt(x, 0)
  {
    (x >> 1) | (x << 7)
  }

  /** `(x << 1) | carry`: every bit one place up, the carry into bit 0. */
  function RotateLeftThrough(x: Byte, carry: bool): (r: Byte)
    ensures BitAt(r, 0) == carry
  {
    (x << 1) | BoolByte(carry)
  }

  /** `(x >> 1) | (carry << 7)`: every bit one place down, the carry into bit 7. */
  function RotateRightThrough(x: Byte, carry: bool): (r: Byte)
    ensures BitAt(r, 7) == carry
  {
    (x >> 1) | (BoolByte(carry) << 7)
  }

  /** `x << 1`: every bit one place up, bit 0 cleared. */
  function ShiftLeft(x: Byte): (r: Byte)
    ensures !BitAt(r, 0)
  {
    x << 1
  }

  /** `(x >> 1) | (x & 0x80)`: every bit one place down, bit 7 kept. */
  function ShiftRightArithmetic(x: Byte): (r: Byte)
    ensures BitAt(r, 7) == BitAt(x, 7)
  {
    (x >> 1) | (x & 0x80)
  }

  /** `x >> 1`: every bit one place down, bit 7 cleared. */
  function ShiftRightLogical(x: Byte): (r: Byte)
    ensures !BitAt(r, 7)
  {
    x >> 1
  }

  /** `(x << 4) | (x >> 4)`: the two nibbles exchanged. */
  function SwapNibbles(x: Byte): (r: Byte)
    ensures r >> 4 == x & 0x0F && r & 0x0F == x >> 4
  {
    (x << 4) | (x >> 4)
  }

  /** The left rotates and shifts move every bit one place up. */
  lemma LeftBits(x: Byte, carry: bool)
    ensures forall i: Byte :: 1 <= i < 8 ==> BitAt(RotateLeft(x), i) == BitAt(x, i - 1)
    ensures forall i: Byte :: 1 <= i < 8 ==> BitAt(RotateLeftThrough(x, carry), i) == BitAt(x, i - 1)
    ensures forall i: Byte :: 1 <= i < 8 ==> BitAt(ShiftLeft(x), i) == BitAt(x, i - 1)
  {
  }

  /** The right rotates and shifts move every bit one place down. */
  lemma RightBits(x: Byte, carry: bool)
    ensures forall i: Byte :: i < 7 ==> BitAt(RotateRight(x), i) == BitAt(x, i + 1)
    ensures forall i: Byte :: i < 7 ==> BitAt(RotateRightThrough(x, carry), i) == BitAt(x, i + 1)
    ensures forall i: Byte :: i < 7 ==> BitAt(ShiftRightArithmetic(x), i) == BitAt(x, i + 1)
    ensures forall i: Byte :: i < 7 ==> BitAt(ShiftRightLogical(x), i) == BitAt(x, i + 1)
  {
  }

  /** Bit i of the swapped byte is bit i + 4 (modulo 8) of the operand. */
  lemma SwapNibblesBits(x: Byte)
    ensures forall i: Byte :: i < 8 ==> BitAt(SwapNibbles(x), i) == BitAt(x, (i + 4) % 8)
  {
  }

  lemma RotateLeftRightInverse(x: Byte)
    ensures RotateRight(RotateLeft(x)) == x
    ensures RotateLeft(RotateRight(x)) == x
  {
  }

  lemma RotateThroughInverse(x: Byte, carry: bool)
    ensures RotateRightThrough(RotateLeftThrough(x, carry), HighBit(x)) == x
    ensures LowBit(RotateLeftThrough(x, carry)) == carry
    ensures RotateLeftThrough(RotateRightThrough(x, carry), LowBit(x)) == x
    ensures HighBit(RotateRightThrough(x, carry)) == carry
  {
  }

  lemma SwapNibblesTwice(x: Byte)
    ensures SwapNibbles(SwapNibbles(x)) == x
  {
  }

  // ---------------------------------------------------------------------------
  // The steps on A (RLCA, RRCA, RLA, RRA): only the carry flag is written.

  function Rlca(a: Byte, f: FlagsRegister): (r: Outcome)
    ensures r.flags == f.(carry := BitAt(a, 7))
  {
    Outcome(RotateLeft(a), f.(carry := HighBit(a)))
  }

  function Rrca(a: Byte, f: FlagsRegister): (r: Outcome)
    ensures r.flags == f.(carry := BitAt(a, 0))
  {
    Outcome(RotateRight(a), f.(carry := LowBit(a)))
  }

  function Rla(a: Byte, f: FlagsRegister): (r: Outcome)
    ensures r.flags == f.(carry := BitAt(a, 7))
    ensures BitAt(r.value, 0) == f.carry
  {
    Outcome(RotateLeftThrough(a, f.carry), f.(carry := HighBit(a)))
  }

  function Rra(a: Byte, f: FlagsRegister): (r: Outcome)
    ensures r.flags == f.(carry := BitAt(a, 0))
    ensures BitAt(r.value, 7) == f.carry
  {
    Outcome(RotateRightThrough(a, f.carry), f.(carry := LowBit(a)))
  }

  /** RLA followed by RRA gives back both A and the flags, and so does RRA
      followed by RLA. */
  lemma RlaRraInverse(a: Byte, f: FlagsRegister)
    ensures Rra(Rla(a, f).value, Rla(a, f).flags) == Outcome(a, f)
    ensures Rla(Rra(a, f).value, Rra(a, f).flags) == Outcome(a, f)
  {
    RotateThroughInverse(a, f.carry);
  }

  // ---------------------------------------------------------------------------
  // The CB-prefixed steps on a register: Z iff the result is 0, N and H clear,
  // C the bit shifted out.

  /** The flags a CB-prefixed rotate or shift leaves. */
  function ShiftFlags(result: Byte, carryOut: bool): FlagsRegister
  {
    FlagsRegister(result == 0, false, false, carryOut)
  }

  function Rlc(x: Byte): (r: Outcome)
    ensures r.value == RotateLeft(x)
    ensures r.flags == FlagsRegister(r.value == 0, false, false, BitAt(x, 7))
  {
    var result := RotateLeft(x);
    Outcome(result, ShiftFlags(result, HighBit(x)))
  }

  function Rrc(x: Byte): (r: Outcome)
    ensures r.value == RotateRight(x)
    ensures r.flags == FlagsRegister(r.value == 0, false, false, BitAt(x, 0))
  {
    var result := RotateRight(x);
    Outcome(result, ShiftFlags(result, LowBit(x)))
  }

  function Rl(x: Byte, carry: bool): (r: Outcome)
    ensures r.value == RotateLeftThrough(x, carry)
    ensures r.flags == FlagsRegister(r.value == 0, false, false, BitAt(x, 7))
  {
    var result := RotateLeftThrough(x, carry);
    Outcome(result, ShiftFlags(result, HighBit(x)))
  }

  function Rr(x: Byte, carry: bool): (r: Outcome)
    ensures r.value == RotateRightThrough(x, carry)
    ensures r.flags == FlagsRegister(r.value == 0, false, false, BitAt(x, 0))
  {
    var result := RotateRightThrough(x, carry);
    Outcome(result, ShiftFlags(result, LowBit(x)))
  }

  function Sla(x: Byte): (r: Outcome)
    ensures r.value == ShiftLeft(x)
    ensures r.flags == FlagsRegister(r.value == 0, false, false, BitAt(x, 7))
  {
    var result := ShiftLeft(x);
    Outcome(result, ShiftFlags(result, HighBit(x)))
  }

  function Sra(x: Byte): (r: Outcome)
    ensures r.value == ShiftRightArithmetic(x)
    ensures r.flags == FlagsRegister(r.value == 0, false, false, BitAt(x, 0))
  {
    var result := ShiftRightArithmetic(x);
    Outcome(result, ShiftFlags(result, LowBit(x)))
  }

  function Srl(x: Byte): (r: Outcome)
    ensures r.value == ShiftRightLogical(x)
    ensures r.flags == FlagsRegister(r.value == 0, false, false, BitAt(x, 0))
  {
    var result := ShiftRightLogical(x);
    Outcome(result, ShiftFlags(result, LowBit(x)))
  }

  /** SWAP clears the carry as well. */
  function Swap(x: Byte): (r: Outcome)
    ensures r.value == SwapNibbles(x)
    ensures r.flags == FlagsRegister(r.value == 0, false, false, false)
  {
    var result := SwapNibbles(x);
    Outcome(result, FlagsRegister(result == 0, false, false, false))
  }

  /** When each rotate and SWAP sets Z. RLC, RRC and SWAP lose no bit, so Z
      is set exactly when the operand is 0. RL drops bit 7 and RR drops bit 0
      while the carry enters, so Z is set exactly when the bits that stay are
      0 and the carry was clear. */
  lemma RotateZeroIffOperandZero(x: Byte, carry: bool)
    ensures Rlc(x).flags.zero <==> x == 0
    ensures Rrc(x).flags.zero <==> x == 0
    ensures Swap(x).flags.zero <==> x == 0
    ensures Rl(x, carry).flags.zero <==> x & 0x7F == 0 && !carry
    ensures Rr(x, carry).flags.zero <==> x & 0xFE == 0 && !carry
  {
  }

  // ---------------------------------------------------------------------------
  // Single-bit operations; the index must be below 8 for `1 << n` to exist.

  /** BIT: Z iff bit n of A is 0, N clear, H set, carry kept. */
  function TestBit(a: Byte, n: Byte, f: FlagsRegister): (r: FlagsRegister)
    requires n < 8
    ensures r == FlagsRegister(!BitAt(a, n), false, true, f.carry)
  {
    f.(zero := (a & (1 << n)) == 0, subtract := false, halfCarry := true)
  }

  /** SET: bit n of A set, the other seven kept. */
  function SetBit(a: Byte, n: Byte): (r: Byte)
    requires n < 8
    ensures BitAt(r, n)
  {
    a | (1 << n)
  }

  /** RESET: bit n of A cleared, the other seven kept. */
  function ResetBit(a: Byte, n: Byte): (r: Byte)
    requires n < 8
    ensures !BitAt(r, n)
  {
    a & !(1 << n)
  }

  /** SET and RESET leave the other seven bits as they were. */
  lemma SetResetOtherBits(a: Byte, n: Byte)
    requires n < 8
    ensures forall i: Byte :: i < 8 && i != n ==> BitAt(SetBit(a, n), i) == BitAt(a, i)
    ensures forall i: Byte :: i < 8 && i != n ==> BitAt(ResetBit(a, n), i) == BitAt(a, i)
  {
  }

  /** BIT after SET reports the bit as 1, after RESET as 0. */
  lemma TestBitAfterSetReset(a: Byte, n: Byte, f: FlagsRegister)
    requires n < 8
    ensures !TestBit(SetBit(a, n), n, f).zero
    ensures TestBit(ResetBit(a, n), n, f).zero
  {
  }

  /** SET and RESET of one bit: the later one decides the bit. */
  lemma SetResetSameBit(a: Byte, n: Byte)
    requires n < 8
    ensures ResetBit(SetBit(a, n), n) == ResetBit(a, n)
    ensures SetBit(ResetBit(a, n), n) == SetBit(a, n)
  {
  }

  // ---------------------------------------------------------------------------
  // Integer meaning of the sums above.

  lemma WideSumValue(a: Byte, value: Byte, carryIn: bool)
    ensures ((a as bv16) + (value as bv16) + (BoolByte(carryIn) as bv16)) as int == a as int + value as int + BoolInt(carryIn)
    ensures (a as bv16) + (value as bv16) + (BoolByte(carryIn) as bv16) > 0xFF <==> a as int + value as int + BoolInt(carryIn) > 255
  {
  }

  lemma ByteOfValue(x: Byte, y: Byte)
    requires x as int == y as int
    ensures x == y
  {
  }

  lemma LowNibbleValue(x: Byte)
    ensures (x & 0xF) as int == x as int % 16
  {
  }

  lemma SmallSumValue(p: Byte, q: Byte, c: bool)
    requires p < 16 && q < 16
    ensures p + q + BoolByte(c) > 0xF <==> p as int + q as int + BoolInt(c) > 15
  {
  }

  lemma NibbleCarryValue(a: Byte, value: Byte, carryIn: bool)
    ensures (a & 0xF) + (value & 0xF) + BoolByte(carryIn) > 0xF <==> a as int % 16 + value as int % 16 + BoolInt(carryIn) > 15
    ensures (a & 0xF) + (value & 0xF) > 0xF <==> a as int % 16 + value as int % 16 > 15
  {
    LowNibbleValue(a);
    LowNibbleValue(value);
    SmallSumValue(a & 0xF, value & 0xF, carryIn);
    SmallSumValue(a & 0xF, value & 0xF, false);
  }
}
