/** Go's 64-bit signed integers and the wrap-around of `atomic.AddInt64`. */
module Int64 {

  const Modulus: int := 0x1_0000_0000_0000_0000
  const MinInt64: int := -0x8000_0000_0000_0000
  const MaxInt64: int := 0x7fff_ffff_ffff_ffff

  newtype int64 = x: int | -0x8000_0000_0000_0000 <= x < 0x8000_0000_0000_0000

  /**
   * Two's-complement truncation of an unbounded integer to 64 bits: the value
   * in the 64-bit range that differs from `x` by a multiple of 2^64.
   */
  function Wrap(x: int): (r: int64)
    ensures MinInt64 <= x <= MaxInt64 ==> r as int == x
    decreases if x < MinInt64 then MinInt64 - x else x - MaxInt64
  {
    if x < MinInt64 then Wrap(x + Modulus)
    else if x > MaxInt64 then Wrap(x - Modulus)
    else x as int64
  }

  /** `Wrap` changes its argument by a multiple of 2^64. */
  lemma {:induction false} WrapResidue(x: int)
    ensures (x - Wrap(x) as int) % Modulus == 0
    decreases if x < MinInt64 then MinInt64 - x else x - MaxInt64
  {
    var r := Wrap(x) as int;
    if x < MinInt64 {
      WrapResidue(x + Modulus);
      var k := (x + Modulus - r) / Modulus;
      assert x + Modulus - r == Modulus * k;
      ModulusMultiple(x - r, k - 1);
    } else if x > MaxInt64 {
      WrapResidue(x - Modulus);
      var k := (x - Modulus - r) / Modulus;
      assert x - Modulus - r == Modulus * k;
      ModulusMultiple(x - r, k + 1);
    }
  }

  /** `atomic.AddInt64`: the sum wraps around at the ends of the 64-bit range. */
  function AddInt64(a: int64, b: int64): (r: int64)
    ensures MinInt64 <= a as int + b as int <= MaxInt64 ==> r as int == a as int + b as int
    ensures b == 0 ==> r == a
  {
    Wrap(a as int + b as int)
  }

  /** A value is determined by its residue modulo 2^64 once it lies in the 64-bit range. */
  lemma ResidueDeterminesValue(x: int, y: int)
    requires MinInt64 <= x <= MaxInt64 && MinInt64 <= y <= MaxInt64
    requires (x - y) % Modulus == 0
    ensures x == y
  {
    var q := (x - y) / Modulus;
    assert x - y == Modulus * q;
  }

  /** Integers that agree modulo 2^64 wrap to the same 64-bit value. */
  lemma WrapCongruent(x: int, y: int)
    requires (x - y) % Modulus == 0
    ensures Wrap(x) == Wrap(y)
  {
    var rx, ry := Wrap(x) as int, Wrap(y) as int;
    WrapResidue(x);
    WrapResidue(y);
    var k := (x - y) / Modulus;
    var kx := (x - rx) / Modulus;
    var ky := (y - ry) / Modulus;
    assert x - y == Modulus * k;
    assert x - rx == Modulus * kx;
    assert y - ry == Modulus * ky;
    assert rx - ry == Modulus * (k - kx + ky);
    ModulusMultiple(rx - ry, k - kx + ky);
    ResidueDeterminesValue(rx, ry);
  }

  lemma ModulusMultiple(d: int, k: int)
    requires d == Modulus * k
    ensures d % Modulus == 0
  {
  }

  /** Adding to a wrapped value and wrapping again is the same as wrapping once. */
  lemma WrapOfWrappedSum(x: int, y: int)
    ensures Wrap(Wrap(x) as int + y) == Wrap(x + y)
  {
    WrapResidue(x);
    var k := (x - Wrap(x) as int) / Modulus;
    assert x - Wrap(x) as int == Modulus * k;
    assert (x + y) - (Wrap(x) as int + y) == Modulus * k;
    ModulusMultiple((x + y) - (Wrap(x) as int + y), k);
    WrapCongruent(Wrap(x) as int + y, x + y);
  }
}
