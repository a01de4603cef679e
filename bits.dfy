/** Rust's `u8` and `u16` as bit-vectors, the casts and wrapping operations the
    CPU core uses on them, and the facts that tie each bit-vector result to its
    meaning as an integer. */
module Bits {

  /** Rust `u8`. */
  type Byte = bv8

  /** Rust `u16`. */
  type Word = bv16

  /** Bit `i` of `x`, counting from the least significant bit. */
  predicate BitAt(x: Byte, i: Byte)
    requires i < 8
  {
    (x >> i) & 1 == 1
  }

  /** A flag used as the number 0 or 1, as in `carry << 7` and `value | carry`. */
  function BoolByte(b: bool): Byte
  {
    if b then 1 else 0
  }

  /** The integer 0 or 1 a flag stands for in an addition. */
  function BoolInt(b: bool): int
  {
    if b then 1 else 0
  }

  /** Zero extension, `x as u16`. */
  function Widen(x: Byte): (r: Word)
    ensures r as int == x as int
  {
    x as bv16
  }

  /** Truncating cast, `w as u8`: keeps bits 7-0. */
  function Low(w: Word): (r: Byte)
    ensures r as int == w as int % 256
  {
    SplitValue(w);
    DivMod256(w as int, ((w / 256) as bv8) as int, ((w % 256) as bv8) as int);
    (w % 256) as bv8
  }

  /** `(w >> 8) as u8`: bits 15-8. */
  function High(w: Word): (r: Byte)
    ensures r as int == w as int / 256
  {
    ShiftValue(w);
    Low(w >> 8)
  }

  /** `(hi as u16) << 8 | lo as u16`: the register-pair view. */
  function Join(hi: Byte, lo: Byte): (r: Word)
    ensures r as int == hi as int * 256 + lo as int
  {
    var h, l := Widen(hi), Widen(lo);
    assert h == hi as bv16 && l == lo as bv16;
    assert (hi as bv16 << 8) | (lo as bv16) == (hi as bv16) * 256 + (lo as bv16);
    JoinValue(hi, lo);
    (h << 8) | l
  }

  /** Splitting a word and joining the halves gives the word back. */
  lemma JoinHighLow(w: Word)
    ensures Join(High(w), Low(w)) == w
  {
  }

  /** Joining two bytes and splitting the word gives the bytes back. */
  lemma HighLowJoin(hi: Byte, lo: Byte)
    ensures High(Join(hi, lo)) == hi && Low(Join(hi, lo)) == lo
  {
  }

  /** Rust `u8::overflowing_add`: the wrapped sum and whether it wrapped. */
  function OverflowingAdd(x: Byte, y: Byte): (Byte, bool)
  {
    (x + y, x + y < x)
  }

  /** Rust `u8::wrapping_add`: subtracting `y` again gives back `x`. */
  function WrappingAdd(x: Byte, y: Byte): (r: Byte)
    ensures r - y == x
  {
    x + y
  }

  /** Rust `u8::wrapping_sub`: adding `y` again gives back `x`. */
  function WrappingSub(x: Byte, y: Byte): (r: Byte)
    ensures r + y == x
  {
    x - y
  }

  /** The overflowing add as integers: the sum modulo 256, and an overflow
      exactly when the sum exceeds 255. */
  lemma OverflowingAddValue(x: Byte, y: Byte)
    ensures OverflowingAdd(x, y).0 as int == (x as int + y as int) % 256
    ensures OverflowingAdd(x, y).1 <==> x as int + y as int > 255
  {
    AddValue(x, y);
    OverflowValue(x, y);
  }

  /** The wrapping add and subtract as integers, both modulo 256. */
  lemma WrappingValue(x: Byte, y: Byte)
    ensures WrappingAdd(x, y) as int == (x as int + y as int) % 256
    ensures WrappingSub(x, y) as int == (x as int - y as int) % 256
  {
    AddValue(x, y);
    SubValue(x, y);
  }

  /** Wrapping increment and decrement undo each other. */
  lemma WrappingIncDec(x: Byte)
    ensures WrappingSub(WrappingAdd(x, 1), 1) == x
    ensures WrappingAdd(WrappingSub(x, 1), 1) == x
  {
  }

  // ---------------------------------------------------------------------------
  // Bit-vector arithmetic read as integer arithmetic.

  lemma JoinValue(hi: Byte, lo: Byte)
    ensures ((hi as bv16) * 256 + (lo as bv16)) as int == hi as int * 256 + lo as int
  {
  }

  lemma WidenValue(x: Byte)
    ensures (x as bv16) as int == x as int
  {
  }

  lemma WidenPlus256(w: Byte)
    ensures ((w as bv16) + 256) as int == w as int + 256
  {
  }

  lemma WidenSum(x: Byte, y: Byte)
    ensures ((x as bv16) + (y as bv16)) as int == x as int + y as int
  {
  }

  lemma DivMod256(w: int, hi: int, lo: int)
    requires w == hi * 256 + lo && 0 <= lo < 256
    ensures w % 256 == lo && w / 256 == hi
  {
  }

  /** A word is its high byte times 256 plus its low byte. */
  lemma SplitValue(w: Word)
    ensures w as int == ((w / 256) as bv8) as int * 256 + ((w % 256) as bv8) as int
  {
    var hi := (w / 256) as bv8;
    var lo := (w % 256) as bv8;
    assert w == (hi as bv16) * 256 + (lo as bv16);
    JoinValue(hi, lo);
  }

  lemma ShiftValue(w: Word)
    ensures (w >> 8) as int == w as int / 256
  {
    assert w >> 8 == w / 256;
    DivValue(w);
  }

  lemma DivValue(w: Word)
    ensures (w / 256) as int == w as int / 256
  {
  }

  lemma WidenCarry(x: Byte, y: Byte)
    ensures (x as bv16) + (y as bv16) > 0xFF ==> ((x + y) as bv16) + 256 == (x as bv16) + (y as bv16)
    ensures (x as bv16) + (y as bv16) <= 0xFF ==> (x + y) as bv16 == (x as bv16) + (y as bv16)
  {
  }

  lemma WidenCarryValue(x: Byte, y: Byte)
    ensures (x as bv16) + (y as bv16) > 0xFF <==> x as int + y as int > 255
  {
  }

  lemma IntOfEqual(p: Word, q: Word)
    requires p == q
    ensures p as int == q as int
  {
  }

  lemma ModStep(xi: int, yi: int, wi: int, carry: bool)
    requires 0 <= wi < 256 && 0 <= xi < 256 && 0 <= yi < 256
    requires carry <==> xi + yi > 255
    requires carry ==> wi + 256 == xi + yi
    requires !carry ==> wi == xi + yi
    ensures wi == (xi + yi) % 256
  {
  }

  /** The bit-vector sum is the integer sum modulo 256. */
  lemma AddValue(x: Byte, y: Byte)
    ensures (x + y) as int == (x as int + y as int) % 256
  {
    var w := x + y;
    var carry := (x as bv16) + (y as bv16) > 0xFF;
    WidenCarry(x, y);
    WidenCarryValue(x, y);
    WidenSum(x, y);
    WidenValue(w);
    WidenPlus256(w);
    if carry {
      IntOfEqual((w as bv16) + 256, (x as bv16) + (y as bv16));
    } else {
      IntOfEqual(w as bv16, (x as bv16) + (y as bv16));
    }
    ModStep(x as int, y as int, w as int, carry);
  }

  /** The wrapped sum is below an operand exactly when the addition carried. */
  lemma OverflowValue(x: Byte, y: Byte)
    ensures x + y < x <==> x as int + y as int > 255
  {
    WidenCarryValue(x, y);
    OverflowWiden(x, y);
  }

  lemma OverflowWiden(x: Byte, y: Byte)
    ensures x + y < x <==> (x as bv16) + (y as bv16) > 0xFF
  {
  }

  lemma SubMod(x: int, y: int, d: int)
    requires 0 <= x < 256 && 0 <= y < 256 && 0 <= d < 256
    requires (d + y) % 256 == x
    ensures d == (x - y) % 256
  {
  }

  lemma AddBack(x: Byte, y: Byte)
    ensures (x - y) + y == x
  {
  }

  /** The bit-vector difference is the integer difference modulo 256. */
  lemma SubValue(x: Byte, y: Byte)
    ensures (x - y) as int == (x as int - y as int) % 256
  {
    AddBack(x, y);
    AddValue(x - y, y);
    SubMod(x as int, y as int, (x - y) as int);
  }
}
