/** The executor (src/cpu.rs): a CPU object owning the register file and the
    flags record, whose `Execute` updates them in place one arm at a time.
    `Exec` is the same step on values; `Execute` is proved to agree with it,
    and the lemmas below state what each arm promises. */
module Cpu {
  import opened Bits
  import opened Registers
  import opened Instructions
  import opened Alu

  /** Everything an instruction can change: the registers and the flags. */
  datatype CpuState = CpuState(regs: RegisterValues, flags: FlagsRegister)

  /** BIT, SET and RESET shift 1 left by register C, which must be below 8. */
  predicate CanExecute(s: CpuState, instruction: Instruction)
  {
    (instruction.BIT? || instruction.SET? || instruction.RESET?) ==> s.regs.c < 8
  }

  /** What one arm of `CPU::execute` writes: A, C and the flags. */
  datatype Effect = Effect(a: Byte, c: Byte, flags: FlagsRegister)

  /** An arm that writes A and the whole flags record. */
  function IntoA(s: CpuState, o: Outcome): Effect
  {
    Effect(o.value, s.regs.c, o.flags)
  }

  /** An arm that writes C and the whole flags record. */
  function IntoC(s: CpuState, o: Outcome): Effect
  {
    Effect(s.regs.a, o.value, o.flags)
  }

  /** An arm that writes nothing. */
  function Keep(s: CpuState): Effect
  {
    Effect(s.regs.a, s.regs.c, s.flags)
  }

  /** The instructions whose arm stores its result in register C. */
  predicate WritesC(instruction: Instruction)
  {
    instruction.INC? || instruction.DEC? || instruction.SRL? || instruction.RR? || instruction.RL? ||
    instruction.RRC? || instruction.RLC? || instruction.SRA? || instruction.SLA? || instruction.SWAP?
  }

  /** The arm of `CPU::execute` for `instruction`. */
  function Arm(s: CpuState, instruction: Instruction): Effect
    requires CanExecute(s, instruction)
  {
    var regs, flags := s.regs, s.flags;
    match instruction
    case ADD(target) => if target == C then IntoA(s, Alu.Add(regs.a, regs.c)) else Keep(s)
    case ADC(_) => IntoA(s, Adc(regs.a, regs.c, flags.carry))
    case AND(_) => IntoA(s, And(regs.a, regs.c))
    case OR(_) => IntoA(s, Or(regs.a, regs.c))
    case XOR(_) => IntoA(s, Xor(regs.a, regs.c))
    case INC(target) => if target == Register(C) then Effect(regs.a, WrappingAdd(regs.c, 1), flags) else Keep(s)
    case DEC(target) => if target == Register(C) then Effect(regs.a, WrappingSub(regs.c, 1), flags) else Keep(s)
    case CCF => Effect(regs.a, regs.c, flags.(carry := !flags.carry))
    case SCF => Effect(regs.a, regs.c, flags.(carry := true))
    case CPL => Effect(Complement(regs.a), regs.c, flags)
    case RRA => IntoA(s, Rra(regs.a, flags))
    case RLA => IntoA(s, Rla(regs.a, flags))
    case RRCA => IntoA(s, Rrca(regs.a, flags))
    case RLCA => IntoA(s, Rlca(regs.a, flags))
    case BIT => Effect(regs.a, regs.c, TestBit(regs.a, regs.c, flags))
    case RESET => Effect(ResetBit(regs.a, regs.c), regs.c, flags)
    case SET => Effect(SetBit(regs.a, regs.c), regs.c, flags)
    case SRL => IntoC(s, Srl(regs.c))
    case RR => IntoC(s, Rr(regs.c, flags.carry))
    case RL => IntoC(s, Rl(regs.c, flags.carry))
    case RRC => IntoC(s, Rrc(regs.c))
    case RLC => IntoC(s, Rlc(regs.c))
    case SRA => IntoC(s, Sra(regs.c))
    case SLA => IntoC(s, Sla(regs.c))
    case SWAP => IntoC(s, Swap(regs.c))
  }

  /** The arms that store into C, and those of CCF, SCF and BIT, leave A as
      it was. */
  lemma ArmKeepsA(s: CpuState, instruction: Instruction)
    requires CanExecute(s, instruction)
    ensures WritesC(instruction) || instruction.CCF? || instruction.SCF? || instruction.BIT? ==>
      Arm(s, instruction).a == s.regs.a
  {
  }

  /** Every other arm leaves C as it was, so no arm writes both A and C. */
  lemma ArmKeepsC(s: CpuState, instruction: Instruction)
    requires CanExecute(s, instruction)
    ensures !WritesC(instruction) ==> Arm(s, instruction).c == s.regs.c
  {
  }

  /** INC, DEC, CPL, SET and RESET leave every flag as it was. */
  lemma ArmKeepsFlags(s: CpuState, instruction: Instruction)
    requires CanExecute(s, instruction)
    ensures instruction.INC? || instruction.DEC? || instruction.CPL? || instruction.SET? || instruction.RESET? ==>
      Arm(s, instruction).flags == s.flags
  {
  }

  /** One execute step on values: the arm's writes applied to the state.
      Whatever the instruction, B, D, E, H and L keep their values. */
  function Exec(s: CpuState, instruction: Instruction): (r: CpuState)
    requires CanExecute(s, instruction)
    ensures r.regs == s.regs.(a := r.regs.a, c := r.regs.c)
  {
    var e := Arm(s, instruction);
    CpuState(s.regs.(a := e.a, c := e.c), e.flags)
  }

  class CPU {
    const registers: Registers
    var flags: FlagsRegister

    constructor (registers: Registers, flags: FlagsRegister)
      ensures this.registers == registers && this.flags == flags
    {
      this.registers := registers;
      this.flags := flags;
    }

    ghost function State(): CpuState
      reads this, registers
    {
      CpuState(registers.Values(), flags)
    }

    /** `CPU::add`: writes the four flags from A and `value`, then returns the
        wrapped sum; A itself is left for the caller to assign. */
    method Add(value: Byte) returns (newValue: Byte)
      modifies this
      ensures newValue == Alu.Add(registers.a, value).value
      ensures flags == Alu.Add(registers.a, value).flags
    {
      var sum := OverflowingAdd(registers.a, value);
      newValue := sum.0;
      var didOverflow := sum.1;
      flags := flags.(zero := newValue == 0);
      flags := flags.(subtract := false);
      flags := flags.(carry := didOverflow);
      flags := flags.(halfCarry := (registers.a & 0xF) + (value & 0xF) > 0xF);
    }

    /** `CPU::execute`: one step, in place. The arms are grouped below by the
        kind of step. ADD, ADC, AND, OR, XOR, INC, DEC and the CB-prefixed
        shifts, rotates and SWAP take their operand from register C; the four
        A-rotates and CPL act on A; BIT, SET and RESET act on A with the bit
        index in C; CCF and SCF have no operand. */
    method Execute(instruction: Instruction)
      requires CanExecute(State(), instruction)
      modifies this, registers
      ensures State() == Exec(old(State()), instruction)
    {
      match instruction
      case ADD(_) => ExecuteAdd(instruction);
      case ADC(_) => ExecuteAdd(instruction);
      case AND(_) => ExecuteLogic(instruction);
      case OR(_) => ExecuteLogic(instruction);
      case XOR(_) => ExecuteLogic(instruction);
      case INC(_) => ExecuteIncDec(instruction);
      case DEC(_) => ExecuteIncDec(instruction);
      case CCF => ExecuteFlags(instruction);
      case SCF => ExecuteFlags(instruction);
      case CPL => ExecuteFlags(instruction);
      case RRA => ExecuteRotateA(instruction);
      case RLA => ExecuteRotateA(instruction);
      case RRCA => ExecuteRotateA(instruction);
      case RLCA => ExecuteRotateA(instruction);
      case BIT => ExecuteBit(instruction);
      case RESET => ExecuteBit(instruction);
      case SET => ExecuteBit(instruction);
      case SRL => ExecuteShift(instruction);
      case SRA => ExecuteShift(instruction);
      case SLA => ExecuteShift(instruction);
      case SWAP => ExecuteShift(instruction);
      case RR => ExecuteRotate(instruction);
      case RL => ExecuteRotate(instruction);
      case RRC => ExecuteRotate(instruction);
      case RLC => ExecuteRotate(instruction);
    }

    /** The ADD and ADC arms. */
    method ExecuteAdd(instruction: Instruction)
      requires instruction.ADD? || instruction.ADC?
      modifies this, registers
      ensures State() == Exec(old(State()), instruction)
    {
      match instruction
      case ADD(target) =>
        match target {
          case C =>
            var value := registers.c;
            var newValue := Add(value);
            registers.a := newValue;
          case _ =>
        }
      case ADC(_) =>
        // One three-term addition with the carry held before the step.
        var value := registers.c;
        var sum := Adc(registers.a, value, flags.carry);
        registers.a := sum.value;
        flags := sum.flags;
    }

    /** The AND, OR and XOR arms. */
    method ExecuteLogic(instruction: Instruction)
      requires instruction.AND? || instruction.OR? || instruction.XOR?
      modifies this, registers
      ensures State() == Exec(old(State()), instruction)
    {
      var value := registers.c;
      match instruction
      case AND(_) =>
        registers.a := registers.a & value;
        flags := flags.(zero := registers.a == 0, subtract := false, halfCarry := true, carry := false);
      case OR(_) =>
        registers.a := registers.a | value;
        flags := flags.(zero := registers.a == 0, subtract := false, halfCarry := false, carry := false);
      case XOR(_) =>
        registers.a := registers.a ^ value;
        flags := flags.(zero := registers.a == 0, subtract := false, halfCarry := false, carry := false);
    }

    /** The INC and DEC arms: only register C is wired up. */
    method ExecuteIncDec(instruction: Instruction)
      requires instruction.INC? || instruction.DEC?
      modifies this, registers
      ensures State() == Exec(old(State()), instruction)
    {
      match instruction
      case INC(target) =>
        match target {
          case Register(C) =>
            registers.c := WrappingAdd(registers.c, 1);
          case _ =>
        }
      case DEC(target) =>
        match target {
          case Register(C) =>
            registers.c := WrappingSub(registers.c, 1);
          case _ =>
        }
    }

    /** The CCF, SCF and CPL arms. */
    method ExecuteFlags(instruction: Instruction)
      requires instruction.CCF? || instruction.SCF? || instruction.CPL?
      modifies this, registers
      ensures State() == Exec(old(State()), instruction)
    {
      match instruction
      case CCF =>
        flags := flags.(carry := !flags.carry);
      case SCF =>
        flags := flags.(carry := true);
      case CPL =>
        registers.a := Complement(registers.a);
    }

    /** The RRA, RLA, RRCA and RLCA arms: only the carry flag is written. */
    method ExecuteRotateA(instruction: Instruction)
      requires instruction.RRA? || instruction.RLA? || instruction.RRCA? || instruction.RLCA?
      modifies this, registers
      ensures State() == Exec(old(State()), instruction)
    {
      match instruction
      case RRA =>
        var carry := flags.carry;
        flags := flags.(carry := LowBit(registers.a));
        registers.a := RotateRightThrough(registers.a, carry);
      case RLA =>
        var carry := flags.carry;
        flags := flags.(carry := HighBit(registers.a));
        registers.a := RotateLeftThrough(registers.a, carry);
      case RRCA =>
        flags := flags.(carry := LowBit(registers.a));
        registers.a := RotateRight(registers.a);
      case RLCA =>
        flags := flags.(carry := HighBit(registers.a));
        registers.a := RotateLeft(registers.a);
    }

    /** The BIT, RESET and SET arms, with the bit index in register C. */
    method ExecuteBit(instruction: Instruction)
      requires instruction.BIT? || instruction.RESET? || instruction.SET?
      requires registers.c < 8
      modifies this, registers
      ensures State() == Exec(old(State()), instruction)
    {
      var value := registers.c;
      match instruction
      case BIT =>
        flags := flags.(zero := (registers.a & (1 << value)) == 0, subtract := false, halfCarry := true);
      case RESET =>
        registers.a := ResetBit(registers.a, value);
      case SET =>
        registers.a := SetBit(registers.a, value);
    }

    /** The SRL, SRA, SLA and SWAP arms on register C. */
    method ExecuteShift(instruction: Instruction)
      requires instruction.SRL? || instruction.SRA? || instruction.SLA? || instruction.SWAP?
      modifies this, registers
      ensures State() == Exec(old(State()), instruction)
    {
      var value := registers.c;
      match instruction
      case SRL =>
        registers.c := ShiftRightLogical(value);
        flags := flags.(zero := registers.c == 0, subtract := false, halfCarry := false, carry := LowBit(value));
      case SRA =>
        registers.c := ShiftRightArithmetic(value);
        flags := flags.(zero := registers.c == 0, subtract := false, halfCarry := false, carry := LowBit(value));
      case SLA =>
        registers.c := ShiftLeft(value);
        flags := flags.(zero := registers.c == 0, subtract := false, halfCarry := false, carry := HighBit(value));
      case SWAP =>
        registers.c := SwapNibbles(value);
        flags := flags.(zero := registers.c == 0, subtract := false, halfCarry := false, carry := false);
    }

    /** The RR, RL, RRC and RLC arms on register C. */
    method ExecuteRotate(instruction: Instruction)
      requires instruction.RR? || instruction.RL? || instruction.RRC? || instruction.RLC?
      modifies this, registers
      ensures State() == Exec(old(State()), instruction)
    {
      var value := registers.c;
      match instruction
      case RR =>
        var carry := flags.carry;
        registers.c := RotateRightThrough(value, carry);
        flags := flags.(zero := registers.c == 0, subtract := false, halfCarry := false, carry := LowBit(value));
      case RL =>
        var carry := flags.carry;
        registers.c := RotateLeftThrough(value, carry);
        flags := flags.(zero := registers.c == 0, subtract := false, halfCarry := false, carry := HighBit(value));
      case RRC =>
        registers.c := RotateRight(value);
        flags := flags.(zero := registers.c == 0, subtract := false, halfCarry := false, carry := LowBit(value));
      case RLC =>
        registers.c := RotateLeft(value);
        flags := flags.(zero := registers.c == 0, subtract := false, halfCarry := false, carry := HighBit(value));
    }
  }

  // ---------------------------------------------------------------------------
  // ADD and ADC

  /** ADD C: A becomes A + C modulo 256 and no other register changes; Z iff the
      new A is 0, N clear, C iff the unwrapped sum exceeds 255, H iff the low
      nibbles of the old A and C sum above 15. */
  lemma ExecAddC(s: CpuState)
    ensures var r := Exec(s, ADD(C));
      && r.regs == s.regs.(a := r.regs.a)
      && r.regs.a as int == (s.regs.a as int + s.regs.c as int) % 256
      && (r.flags.zero <==> r.regs.a == 0)
      && !r.flags.subtract
      && (r.flags.carry <==> s.regs.a as int + s.regs.c as int > 255)
      && (r.flags.halfCarry <==> s.regs.a as int % 16 + s.regs.c as int % 16 > 15)
  {
    AddSum(s.regs.a, s.regs.c);
  }

  /** ADD with any register other than C is not wired up and changes nothing. */
  lemma ExecAddOtherTarget(s: CpuState, target: ArithmeticTarget)
    requires target != C
    ensures Exec(s, ADD(target)) == s
  {
  }

  /** ADC: A becomes A + C + carry modulo 256, with the flags of that one sum. */
  lemma ExecAdc(s: CpuState, target: ArithmeticTarget)
    ensures var r := Exec(s, ADC(target));
      var sum := s.regs.a as int + s.regs.c as int + BoolInt(s.flags.carry);
      && r.regs == s.regs.(a := r.regs.a)
      && r.regs.a as int == sum % 256
      && (r.flags.zero <==> r.regs.a == 0)
      && !r.flags.subtract
      && (r.flags.carry <==> sum > 255)
      && (r.flags.halfCarry <==> s.regs.a as int % 16 + s.regs.c as int % 16 + BoolInt(s.flags.carry) > 15)
  {
    var o := Adc(s.regs.a, s.regs.c, s.flags.carry);
    assert Exec(s, ADC(target)) == CpuState(s.regs.(a := o.value), o.flags);
    AdcSum(s.regs.a, s.regs.c, s.flags.carry);
  }

  // ---------------------------------------------------------------------------
  // AND, OR and XOR: A combined with C bit by bit whatever target is named;
  // Z iff the new A is 0, N and C clear, H set only by AND.

  lemma ExecAnd(s: CpuState, target: ArithmeticTarget)
    ensures var r := Exec(s, AND(target));
      && r.regs == s.regs.(a := r.regs.a)
      && (forall i: Byte :: i < 8 ==> (BitAt(r.regs.a, i) <==> BitAt(s.regs.a, i) && BitAt(s.regs.c, i)))
      && r.flags == FlagsRegister(r.regs.a == 0, false, true, false)
  {
    LogicBits(s.regs.a, s.regs.c);
  }

  lemma ExecOr(s: CpuState, target: ArithmeticTarget)
    ensures var r := Exec(s, OR(target));
      && r.regs == s.regs.(a := r.regs.a)
      && (forall i: Byte :: i < 8 ==> (BitAt(r.regs.a, i) <==> BitAt(s.regs.a, i) || BitAt(s.regs.c, i)))
      && r.flags == FlagsRegister(r.regs.a == 0, false, false, false)
  {
    LogicBits(s.regs.a, s.regs.c);
  }

  lemma ExecXor(s: CpuState, target: ArithmeticTarget)
    ensures var r := Exec(s, XOR(target));
      && r.regs == s.regs.(a := r.regs.a)
      && (forall i: Byte :: i < 8 ==> (BitAt(r.regs.a, i) <==> BitAt(s.regs.a, i) != BitAt(s.regs.c, i)))
      && r.flags == FlagsRegister(r.regs.a == 0, false, false, false)
  {
    LogicBits(s.regs.a, s.regs.c);
  }

  // ---------------------------------------------------------------------------
  // INC and DEC

  /** INC C wraps modulo 256 and leaves every flag as it was. */
  lemma ExecIncC(s: CpuState)
    ensures var r := Exec(s, INC(Register(C)));
      r.flags == s.flags && r.regs == s.regs.(c := r.regs.c) && r.regs.c as int == (s.regs.c as int + 1) % 256
  {
    WrappingValue(s.regs.c, 1);
  }

  /** DEC C wraps modulo 256 and leaves every flag as it was. */
  lemma ExecDecC(s: CpuState)
    ensures var r := Exec(s, DEC(Register(C)));
      r.flags == s.flags && r.regs == s.regs.(c := r.regs.c) && r.regs.c as int == (s.regs.c as int - 1) % 256
  {
    WrappingValue(s.regs.c, 1);
  }

  /** The wrap cases: 0xFF + 1 is 0x00 and 0x00 - 1 is 0xFF. */
  lemma ExecIncDecWrap(s: CpuState)
    ensures s.regs.c == 0xFF ==> Exec(s, INC(Register(C))).regs.c == 0x00
    ensures s.regs.c == 0x00 ==> Exec(s, DEC(Register(C))).regs.c == 0xFF
  {
  }

  /** DEC C undoes INC C, and INC C undoes DEC C. */
  lemma ExecIncDecInverse(s: CpuState)
    ensures Exec(Exec(s, INC(Register(C))), DEC(Register(C))) == s
    ensures Exec(Exec(s, DEC(Register(C))), INC(Register(C))) == s
  {
    WrappingIncDec(s.regs.c);
  }

  /** INC and DEC of any other target, the BC and DE pairs included, are not
      wired up and change nothing. */
  lemma ExecIncDecOtherTarget(s: CpuState, target: IncDecTarget)
    requires target != Register(C)
    ensures Exec(s, INC(target)) == s && Exec(s, DEC(target)) == s
  {
  }

  // ---------------------------------------------------------------------------
  // CCF, SCF and CPL: nothing but the carry flag, or A, changes.

  lemma ExecCcf(s: CpuState)
    ensures Exec(s, CCF) == s.(flags := s.flags.(carry := !s.flags.carry))
  {
  }

  lemma ExecScf(s: CpuState)
    ensures Exec(s, SCF) == s.(flags := s.flags.(carry := true))
  {
  }

  lemma ExecCpl(s: CpuState)
    ensures var r := Exec(s, CPL);
      r.flags == s.flags && r.regs == s.regs.(a := r.regs.a)
      && forall i: Byte :: i < 8 ==> BitAt(r.regs.a, i) == !BitAt(s.regs.a, i)
  {
    ComplementBits(s.regs.a);
  }

  /** CCF twice and CPL twice change nothing; SCF twice is SCF once. */
  lemma ExecCcfCplTwice(s: CpuState)
    ensures Exec(Exec(s, CCF), CCF) == s
    ensures Exec(Exec(s, CPL), CPL) == s
    ensures Exec(Exec(s, SCF), SCF) == Exec(s, SCF)
  {
    ComplementTwice(s.regs.a);
  }

  // ---------------------------------------------------------------------------
  // Rotates of A: only A and the carry flag change, and the carry receives the
  // bit moved out of A.

  lemma ExecRlca(s: CpuState)
    ensures var r := Exec(s, RLCA);
      && r.regs == s.regs.(a := r.regs.a) && r.flags == s.flags.(carry := BitAt(s.regs.a, 7))
      && BitAt(r.regs.a, 0) == BitAt(s.regs.a, 7)
      && forall i: Byte :: 1 <= i < 8 ==> BitAt(r.regs.a, i) == BitAt(s.regs.a, i - 1)
  {
    LeftBits(s.regs.a, s.flags.carry);
  }

  lemma ExecRrca(s: CpuState)
    ensures var r := Exec(s, RRCA);
      && r.regs == s.regs.(a := r.regs.a) && r.flags == s.flags.(carry := BitAt(s.regs.a, 0))
      && BitAt(r.regs.a, 7) == BitAt(s.regs.a, 0)
      && forall i: Byte :: i < 7 ==> BitAt(r.regs.a, i) == BitAt(s.regs.a, i + 1)
  {
    RightBits(s.regs.a, s.flags.carry);
  }

  lemma ExecRla(s: CpuState)
    ensures var r := Exec(s, RLA);
      && r.regs == s.regs.(a := r.regs.a) && r.flags == s.flags.(carry := BitAt(s.regs.a, 7))
      && BitAt(r.regs.a, 0) == s.flags.carry
      && forall i: Byte :: 1 <= i < 8 ==> BitAt(r.regs.a, i) == BitAt(s.regs.a, i - 1)
  {
    LeftBits(s.regs.a, s.flags.carry);
  }

  lemma ExecRra(s: CpuState)
    ensures var r := Exec(s, RRA);
      && r.regs == s.regs.(a := r.regs.a) && r.flags == s.flags.(carry := BitAt(s.regs.a, 0))
      && BitAt(r.regs.a, 7) == s.flags.carry
      && forall i: Byte :: i < 7 ==> BitAt(r.regs.a, i) == BitAt(s.regs.a, i + 1)
  {
    RightBits(s.regs.a, s.flags.carry);
  }

  /** RLCA and RRCA undo each other on the registers. */
  lemma ExecRlcaRrcaInverse(s: CpuState)
    ensures Exec(Exec(s, RLCA), RRCA).regs == s.regs
    ensures Exec(Exec(s, RRCA), RLCA).regs == s.regs
  {
    RotateLeftRightInverse(s.regs.a);
  }

  /** RLA followed by RRA restores A and the carry, and so the whole state. */
  lemma ExecRlaThenRra(s: CpuState)
    ensures Exec(Exec(s, RLA), RRA) == s
  {
    RlaRraInverse(s.regs.a, s.flags);
  }

  /** RRA followed by RLA restores the whole state as well. */
  lemma ExecRraThenRla(s: CpuState)
    ensures Exec(Exec(s, RRA), RLA) == s
  {
    RlaRraInverse(s.regs.a, s.flags);
  }

  // ---------------------------------------------------------------------------
  // The CB-prefixed steps on C: only C and the flags change; Z iff the new C is
  // 0, N and H clear, and the carry is the bit moved out (SWAP clears it).

  lemma ExecRlc(s: CpuState)
    ensures var r := Exec(s, RLC);
      && r.regs == s.regs.(c := r.regs.c) && r.flags == FlagsRegister(r.regs.c == 0, false, false, BitAt(s.regs.c, 7))
      && BitAt(r.regs.c, 0) == BitAt(s.regs.c, 7)
      && forall i: Byte :: 1 <= i < 8 ==> BitAt(r.regs.c, i) == BitAt(s.regs.c, i - 1)
  {
    LeftBits(s.regs.c, s.flags.carry);
  }

  lemma ExecRrc(s: CpuState)
    ensures var r := Exec(s, RRC);
      && r.regs == s.regs.(c := r.regs.c) && r.flags == FlagsRegister(r.regs.c == 0, false, false, BitAt(s.regs.c, 0))
      && BitAt(r.regs.c, 7) == BitAt(s.regs.c, 0)
      && forall i: Byte :: i < 7 ==> BitAt(r.regs.c, i) == BitAt(s.regs.c, i + 1)
  {
    RightBits(s.regs.c, s.flags.carry);
  }

  lemma ExecRl(s: CpuState)
    ensures var r := Exec(s, RL);
      && r.regs == s.regs.(c := r.regs.c) && r.flags == FlagsRegister(r.regs.c == 0, false, false, BitAt(s.regs.c, 7))
      && BitAt(r.regs.c, 0) == s.flags.carry
      && forall i: Byte :: 1 <= i < 8 ==> BitAt(r.regs.c, i) == BitAt(s.regs.c, i - 1)
  {
    LeftBits(s.regs.c, s.flags.carry);
  }

  lemma ExecRr(s: CpuState)
    ensures var r := Exec(s, RR);
      && r.regs == s.regs.(c := r.regs.c) && r.flags == FlagsRegister(r.regs.c == 0, false, false, BitAt(s.regs.c, 0))
      && BitAt(r.regs.c, 7) == s.flags.carry
      && forall i: Byte :: i < 7 ==> BitAt(r.regs.c, i) == BitAt(s.regs.c, i + 1)
  {
    RightBits(s.regs.c, s.flags.carry);
  }

  /** SLA: bit 0 cleared, the carry is the old bit 7. */
  lemma ExecSla(s: CpuState)
    ensures var r := Exec(s, SLA);
      && r.regs == s.regs.(c := r.regs.c) && r.flags == FlagsRegister(r.regs.c == 0, false, false, BitAt(s.regs.c, 7))
      && !BitAt(r.regs.c, 0)
      && forall i: Byte :: 1 <= i < 8 ==> BitAt(r.regs.c, i) == BitAt(s.regs.c, i - 1)
  {
    LeftBits(s.regs.c, s.flags.carry);
  }

  /** SRA: bit 7 kept, the carry is the old bit 0. */
  lemma ExecSra(s: CpuState)
    ensures var r := Exec(s, SRA);
      && r.regs == s.regs.(c := r.regs.c) && r.flags == FlagsRegister(r.regs.c == 0, false, false, BitAt(s.regs.c, 0))
      && BitAt(r.regs.c, 7) == BitAt(s.regs.c, 7)
      && forall i: Byte :: i < 7 ==> BitAt(r.regs.c, i) == BitAt(s.regs.c, i + 1)
  {
    RightBits(s.regs.c, s.flags.carry);
  }

  /** SRL: bit 7 cleared, the carry is the old bit 0. */
  lemma ExecSrl(s: CpuState)
    ensures var r := Exec(s, SRL);
      && r.regs == s.regs.(c := r.regs.c) && r.flags == FlagsRegister(r.regs.c == 0, false, false, BitAt(s.regs.c, 0))
      && !BitAt(r.regs.c, 7)
      && forall i: Byte :: i < 7 ==> BitAt(r.regs.c, i) == BitAt(s.regs.c, i + 1)
  {
    RightBits(s.regs.c, s.flags.carry);
  }

  /** SWAP: the nibbles of C exchanged, every flag but Z clear. */
  lemma ExecSwap(s: CpuState)
    ensures var r := Exec(s, SWAP);
      && r.regs == s.regs.(c := r.regs.c) && r.flags == FlagsRegister(r.regs.c == 0, false, false, false)
      && forall i: Byte :: i < 8 ==> BitAt(r.regs.c, i) == BitAt(s.regs.c, (i + 4) % 8)
  {
    SwapNibblesBits(s.regs.c);
  }

  /** SWAP twice gives the registers back. */
  lemma ExecSwapTwice(s: CpuState)
    ensures Exec(Exec(s, SWAP), SWAP).regs == s.regs
  {
    SwapNibblesTwice(s.regs.c);
  }

  // ---------------------------------------------------------------------------
  // BIT, SET and RESET

  /** BIT: Z iff bit C of A is 0, N clear, H set; the carry and every register
      are unchanged. */
  lemma ExecBit(s: CpuState)
    requires s.regs.c < 8
    ensures Exec(s, BIT) == s.(flags := FlagsRegister(!BitAt(s.regs.a, s.regs.c), false, true, s.flags.carry))
  {
  }

  /** SET sets bit C of A; the other seven bits of A, the other registers and
      the flags are unchanged. */
  lemma ExecSet(s: CpuState)
    requires s.regs.c < 8
    ensures var r := Exec(s, SET);
      && r.flags == s.flags && r.regs == s.regs.(a := r.regs.a) && BitAt(r.regs.a, s.regs.c)
      && forall i: Byte :: i < 8 && i != s.regs.c ==> BitAt(r.regs.a, i) == BitAt(s.regs.a, i)
  {
    SetResetOtherBits(s.regs.a, s.regs.c);
  }

  /** RESET clears bit C of A; nothing else changes. */
  lemma ExecReset(s: CpuState)
    requires s.regs.c < 8
    ensures var r := Exec(s, RESET);
      && r.flags == s.flags && r.regs == s.regs.(a := r.regs.a) && !BitAt(r.regs.a, s.regs.c)
      && forall i: Byte :: i < 8 && i != s.regs.c ==> BitAt(r.regs.a, i) == BitAt(s.regs.a, i)
  {
    SetResetOtherBits(s.regs.a, s.regs.c);
  }

  // ---------------------------------------------------------------------------
  // Repeated steps: `execute` called once per instruction, in order.

  /** The state after executing `program` from `s`, or None when some BIT, SET
      or RESET meets a C of 8 or more, where `1 << C` overflows. No program,
      however long, changes B, D, E, H or L. */
  function Run(s: CpuState, program: seq<Instruction>): (r: Option<CpuState>)
    ensures r.Some? ==> r.value.regs == s.regs.(a := r.value.regs.a, c := r.value.regs.c)
    decreases |program|
  {
    if program == [] then Some(s)
    else if !CanExecute(s, program[0]) then None
    else Run(Exec(s, program[0]), program[1..])
  }
}
