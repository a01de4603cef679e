/** Instructions, their operand selectors and the opcode decoder
    (src/instructions.rs). */
module Instructions {
  import opened Bits

  datatype Option<T> = None | Some(value: T)

  /** The 8-bit registers an arithmetic instruction can name. */
  datatype ArithmeticTarget = A | B | C | D | E | H | L

  const AllArithmeticTargets: seq<ArithmeticTarget> := [A, B, C, D, E, H, L]

  /** What INC and DEC can name: an 8-bit register or the BC or DE pair. */
  datatype IncDecTarget = Register(r: ArithmeticTarget) | BC | DE

  /** Every instruction the executor handles. BIT, RESET and SET carry no
      operand: they act on A, with the bit index taken from register C. */
  datatype Instruction =
    | ADD(target: ArithmeticTarget)
    | ADC(target: ArithmeticTarget)
    | AND(target: ArithmeticTarget)
    | OR(target: ArithmeticTarget)
    | XOR(target: ArithmeticTarget)
    | INC(incDec: IncDecTarget)
    | DEC(incDec: IncDecTarget)
    | CCF | SCF | CPL
    | RRA | RLA | RRCA | RLCA
    | BIT | RESET | SET
    | SRL | RR | RL | RRC | RLC | SRA | SLA | SWAP

  /** `Instruction::from_byte`: two opcodes are mapped, every other byte is absent. */
  function FromByte(byte: Byte): (r: Option<Instruction>)
    ensures r.Some? <==> byte == 0x02 || byte == 0x13
    ensures r.Some? ==> r.value.INC?
  {
    match byte
    case 0x02 => Some(INC(BC))
    case 0x13 => Some(INC(DE))
    case _ => None
  }

  lemma FromByteIncBc()
    ensures FromByte(0x02) == Some(INC(BC))
  {
  }

  lemma FromByteIncDe()
    ensures FromByte(0x13) == Some(INC(DE))
  {
  }

  /** A byte outside the table decodes to None rather than failing. */
  lemma FromByteUnmapped(byte: Byte)
    requires byte != 0x02 && byte != 0x13
    ensures FromByte(byte) == None
  {
  }

  /** The decoder's table: the only bytes that decode, and what they decode to. */
  lemma FromByteTable(byte: Byte, i: Instruction)
    ensures FromByte(byte) == Some(i) <==> (byte == 0x02 && i == INC(BC)) || (byte == 0x13 && i == INC(DE))
  {
  }

  /** The seven registers are all distinct and every target is one of them. */
  lemma ArithmeticTargetsExactlySeven(t: ArithmeticTarget)
    ensures t in AllArithmeticTargets
    ensures |AllArithmeticTargets| == 7
    ensures forall i, j :: 0 <= i < j < 7 ==> AllArithmeticTargets[i] != AllArithmeticTargets[j]
  {
  }
}
