/** The register file: seven 8-bit registers with the BC pair view, and the
    four-flag record with its packed byte form (src/registers.rs). */
module Registers {
  import opened Bits

  /** The values of the seven registers at one moment. */
  datatype RegisterValues = RegisterValues(a: Byte, b: Byte, c: Byte, d: Byte, e: Byte, h: Byte, l: Byte)

  /** The register file, updated in place. */
  class Registers {
    var a: Byte
    var b: Byte
    var c: Byte
    var d: Byte
    var e: Byte
    var h: Byte
    var l: Byte

    constructor (init: RegisterValues)
      ensures Values() == init
    {
      a, b, c, d, e, h, l := init.a, init.b, init.c, init.d, init.e, init.h, init.l;
    }

    ghost function Values(): RegisterValues
      reads this
    {
      RegisterValues(a, b, c, d, e, h, l)
    }

    /** The BC pair: B is the high byte, C the low byte. */
    function GetBc(): (r: Word)
      reads this
      ensures r as int == b as int * 256 + c as int
    {
      Join(b, c)
    }

    /** Writes the BC pair: B gets the high byte of `value`, C the low byte. */
    method SetBc(value: Word)
      modifies this
      ensures b as int == value as int / 256 && c as int == value as int % 256
      ensures GetBc() == value
      ensures Values() == old(Values()).(b := b, c := c)
    {
      b := High(value);
      c := Low(value);
      JoinHighLow(value);
    }
  }

  /** Writing the pair from its own current value changes no register. */
  method SetBcOfGetBc(r: Registers)
    modifies r
    ensures r.Values() == old(r.Values())
  {
    var v := r.GetBc();
    r.SetBc(v);
  }

  /** The four flags; `self.flags`, `self.flag` and `self.registers.flags` in
      src/cpu.rs all name this one record. */
  datatype FlagsRegister = FlagsRegister(zero: bool, subtract: bool, halfCarry: bool, carry: bool)

  const ZeroBytePosition: Byte := 7
  const SubtractBytePosition: Byte := 6
  const HalfCarryBytePosition: Byte := 5
  const CarryBytePosition: Byte := 4

  /** `From<FlagsRegister> for u8`: each flag at its fixed bit, bits 3-0 clear. */
  function FlagsToByte(flag: FlagsRegister): (r: Byte)
    ensures BitAt(r, 7) == flag.zero && BitAt(r, 6) == flag.subtract
    ensures BitAt(r, 5) == flag.halfCarry && BitAt(r, 4) == flag.carry
    ensures r & 0x0F == 0
  {
    (BoolByte(flag.zero) << ZeroBytePosition) |
    (BoolByte(flag.subtract) << SubtractBytePosition) |
    (BoolByte(flag.halfCarry) << HalfCarryBytePosition) |
    (BoolByte(flag.carry) << CarryBytePosition)
  }

  /** `From<u8> for FlagsRegister`: reads bits 7, 6, 5 and 4. */
  function ByteToFlags(byte: Byte): (f: FlagsRegister)
    ensures f.zero == BitAt(byte, 7) && f.subtract == BitAt(byte, 6)
    ensures f.halfCarry == BitAt(byte, 5) && f.carry == BitAt(byte, 4)
  {
    var zero := (byte >> ZeroBytePosition) & 1 != 0;
    var subtract := (byte >> SubtractBytePosition) & 1 != 0;
    var halfCarry := (byte >> HalfCarryBytePosition) & 1 != 0;
    var carry := (byte >> CarryBytePosition) & 1 != 0;
    FlagsRegister(zero, subtract, halfCarry, carry)
  }

  /** Decoding an encoded record gives the record back. */
  lemma ByteToFlagsOfFlagsToByte(f: FlagsRegister)
    ensures ByteToFlags(FlagsToByte(f)) == f
  {
  }

  /** Encoding a decoded byte keeps bits 7-4 and clears bits 3-0. */
  lemma FlagsToByteOfByteToFlags(byte: Byte)
    ensures FlagsToByte(ByteToFlags(byte)) == byte & 0xF0
  {
  }

  /** Two records with the same byte are the same record. */
  lemma FlagsToByteInjective(f: FlagsRegister, g: FlagsRegister)
    ensures FlagsToByte(f) == FlagsToByte(g) <==> f == g
  {
    ByteToFlagsOfFlagsToByte(f);
    ByteToFlagsOfFlagsToByte(g);
  }
}
