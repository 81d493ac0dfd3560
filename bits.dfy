/**
 * Bytes and integer widths of the target compiler (HCS12: `char` 8 bits,
 * `int` 16 bits, `long` 32 bits).
 *
 * A register that the firmware updates with masked read-modify-write
 * (`reg |= m`, `reg &= ~m`, `reg ^= m`) is modelled as a `Mask`: the set of
 * positions of its 1-bits.  `|` is then union, `& ~` difference, `&`
 * intersection and `^` symmetric difference, and `ByteValue` gives the
 * number the register holds.  A register into which the firmware writes a
 * numeric field (a prescale, a pin action) is a `bv8` instead.
 */
module Bits {

  /** A bit position of an 8-bit register. */
  type Bit = i: int | 0 <= i < 8

  /** An 8-bit value, as the set of its 1-bits. */
  type Mask = set<Bit>

  /** The value 0xFF. */
  const AllBits: Mask := {0, 1, 2, 3, 4, 5, 6, 7}

  /** A signed 16-bit `int` of the target compiler. */
  type Int16 = x: int | -0x8000 <= x < 0x8000

  /** An `unsigned int` of the target compiler. */
  type UInt16 = x: int | 0 <= x < 0x1_0000

  /** An `unsigned char`. */
  type Byte = x: int | 0 <= x < 0x100

  /** The number an 8-bit register with 1-bits `m` holds. */
  function ByteValue(m: Mask): (v: nat)
    ensures v < 0x100
    ensures m == {} <==> v == 0
  {
    (if 0 in m then 0x01 else 0) + (if 1 in m then 0x02 else 0)
    + (if 2 in m then 0x04 else 0) + (if 3 in m then 0x08 else 0)
    + (if 4 in m then 0x10 else 0) + (if 5 in m then 0x20 else 0)
    + (if 6 in m then 0x40 else 0) + (if 7 in m then 0x80 else 0)
  }

  /** 8-bit truncation of a non-negative integer, as a C cast to `unsigned char`. */
  function Low8(n: nat): (r: nat)
    ensures r < 0x100
    ensures (n - r) % 0x100 == 0
  {
    n % 0x100
  }

  /** 16-bit truncation of a non-negative integer, as a C cast to `unsigned int`. */
  function Low16(n: nat): (r: nat)
    ensures r < 0x1_0000
    ensures (n - r) % 0x1_0000 == 0
  {
    n % 0x1_0000
  }

  /** 32-bit truncation, as `unsigned long` arithmetic. */
  function Low32(n: nat): (r: nat)
    ensures r < 0x1_0000_0000
    ensures (n - r) % 0x1_0000_0000 == 0
  {
    n % 0x1_0000_0000
  }

  /** 16-bit truncation absorbs an earlier truncation of the left operand. */
  lemma Low16Add(a: nat, b: nat)
    ensures Low16(Low16(a) + b) == Low16(a + b)
  {
  }

  /** Positions `lo`, `lo + 1` of a two-bit register field. */
  function Span2(lo: nat): Mask
    requires lo + 2 <= 8
  {
    {lo, lo + 1}
  }

  /** Positions `lo` .. `lo + 2` of a three-bit register field. */
  function Span3(lo: nat): Mask
    requires lo + 3 <= 8
  {
    {lo, lo + 1, lo + 2}
  }

  /** The 1-bits of the two-bit value `v` shifted left by `lo`, as `v << lo`. */
  function Field2(v: nat, lo: nat): (m: Mask)
    requires v < 4 && lo + 2 <= 8
    ensures m <= Span2(lo)
  {
    (if v % 2 == 1 then {lo} else {}) + (if v >= 2 then {lo + 1} else {})
  }

  /** The 1-bits of the three-bit value `v` shifted left by `lo`, as `v << lo`. */
  function Field3(v: nat, lo: nat): (m: Mask)
    requires v < 8 && lo + 3 <= 8
    ensures m <= Span3(lo)
  {
    (if v % 2 == 1 then {lo} else {}) + (if (v / 2) % 2 == 1 then {lo + 1} else {})
    + (if v >= 4 then {lo + 2} else {})
  }

  /** The number held in bits `lo`, `lo + 1` of a register, as `(reg >> lo) & 3`. */
  function Value2(m: Mask, lo: nat): (v: nat)
    requires lo + 2 <= 8
    ensures v < 4
  {
    (if lo in m then 1 else 0) + (if lo + 1 in m then 2 else 0)
  }

  /** The number held in bits `lo` .. `lo + 2` of a register, as `(reg >> lo) & 7`. */
  function Value3(m: Mask, lo: nat): (v: nat)
    requires lo + 3 <= 8
    ensures v < 8
  {
    (if lo in m then 1 else 0) + (if lo + 1 in m then 2 else 0) + (if lo + 2 in m then 4 else 0)
  }

  /** Reading back a written two-bit field gives the value written, and a field is its value's bits. */
  lemma Field2RoundTrip(v: nat, m: Mask, lo: nat)
    requires v < 4 && lo + 2 <= 8
    ensures Value2(Field2(v, lo), lo) == v
    ensures Field2(Value2(m, lo), lo) == m * Span2(lo)
  {
    var f := Field2(Value2(m, lo), lo);
    forall b | b in f ensures b in m * Span2(lo) { }
    forall b | b in m * Span2(lo) ensures b in f { }
  }

  /** Reading back a written three-bit field gives the value written, and a field is its value's bits. */
  lemma Field3RoundTrip(v: nat, m: Mask, lo: nat)
    requires v < 8 && lo + 3 <= 8
    ensures Value3(Field3(v, lo), lo) == v
    ensures Field3(Value3(m, lo), lo) == m * Span3(lo)
  {
    var f := Field3(Value3(m, lo), lo);
    forall b | b in f ensures b in m * Span3(lo) { }
    forall b | b in m * Span3(lo) ensures b in f { }
  }

  /** A register with bits `lo`, `lo + 1` replaced by the two-bit value `v`, as `reg = (reg & ~(3 << lo)) | (v << lo)`. */
  function WriteField2(m: Mask, lo: nat, v: nat): (r: Mask)
    requires v < 4 && lo + 2 <= 8
    ensures Value2(r, lo) == v
    ensures r - Span2(lo) == m - Span2(lo)
  {
    Field2RoundTrip(v, m, lo);
    (m - Span2(lo)) + Field2(v, lo)
  }

  /** A register with bits `lo` .. `lo + 2` replaced by the three-bit value `v`. */
  function WriteField3(m: Mask, lo: nat, v: nat): (r: Mask)
    requires v < 8 && lo + 3 <= 8
    ensures Value3(r, lo) == v
    ensures r - Span3(lo) == m - Span3(lo)
  {
    Field3RoundTrip(v, m, lo);
    (m - Span3(lo)) + Field3(v, lo)
  }

  /** Writing back the value a three-bit field holds leaves the register as it was. */
  lemma WriteField3Same(m: Mask, lo: nat)
    requires lo + 3 <= 8
    ensures WriteField3(m, lo, Value3(m, lo)) == m
  {
    Field3RoundTrip(0, m, lo);
    assert (m - Span3(lo)) + m * Span3(lo) == m;
  }

  /**
   * The product of two naturals, kept in a function of its own so that
   * the solver sees the multiplication only where a proof unfolds it.
   */
  function Mul(a: nat, b: nat): nat
  {
    a * b
  }

  /** One more multiple of `b`. */
  lemma MulSucc(a: nat, b: nat)
    ensures Mul(a + 1, b) == Mul(a, b) + b
  {
  }
}
