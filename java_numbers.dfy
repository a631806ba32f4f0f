/**
 * Java's fixed-width integers and the two pieces of `long` arithmetic that the
 * retry policies use: multiplication, which keeps the low 64 bits of the exact
 * product, and `Math.round(Math.pow(2, n))`, which is exact up to 2^62 and
 * saturates at `Long.MAX_VALUE` from 2^63 on.
 */
module JavaNumbers {

  const LongMin: int := -0x8000_0000_0000_0000
  const LongMax: int := 0x7fff_ffff_ffff_ffff

  /** Java `int`. */
  type Int32 = x: int | -0x8000_0000 <= x < 0x8000_0000

  /** Java `long`. */
  type Int64 = x: int | -0x8000_0000_0000_0000 <= x < 0x8000_0000_0000_0000

  predicate InLongRange(x: int) {
    LongMin <= x <= LongMax
  }

  /** The two's-complement reading of the low 64 bits of `x`. */
  function WrapLong(x: int): (r: Int64)
    ensures InLongRange(x) ==> r == x
    ensures (x - r) % 0x1_0000_0000_0000_0000 == 0
  {
    (x + 0x8000_0000_0000_0000) % 0x1_0000_0000_0000_0000 - 0x8000_0000_0000_0000
  }

  /** Adding a multiple of 2^64 does not change the wrapped value. */
  lemma WrapLongShift(k: int, x: int)
    requires InLongRange(x)
    ensures WrapLong(k * 0x1_0000_0000_0000_0000 + x) == x
  {
    var m := 0x1_0000_0000_0000_0000;
    var h := 0x8000_0000_0000_0000;
    assert 0 <= x + h < m;
    assert (k * m + x + h) % m == x + h by {
      assert k * m + x + h == k * m + (x + h);
    }
  }

  /** `a * b` on Java `long`s (an `int` operand is widened first). */
  function LongMul(a: Int64, b: Int64): (r: Int64)
    ensures InLongRange(a * b) ==> r == a * b
  {
    WrapLong(a * b)
  }

  lemma MulMonotone(d: int, a: int, b: int)
    requires 0 < d && 0 <= a <= b
    ensures 0 <= d * a <= d * b
  {
  }

  /** 2^n over the mathematical integers. */
  function Pow2(n: nat): (r: nat)
    ensures r >= 1
  {
    if n == 0 then 1 else 2 * Pow2(n - 1)
  }

  lemma {:induction false} Pow2Monotone(m: nat, n: nat)
    requires m <= n
    ensures Pow2(m) <= Pow2(n)
  {
    if m < n {
      Pow2Monotone(m, n - 1);
    }
  }

  lemma {:induction false} Pow2Add(a: nat, b: nat)
    ensures Pow2(a + b) == Pow2(a) * Pow2(b)
  {
    if a > 0 {
      Pow2Add(a - 1, b);
    }
  }

  lemma Pow2Of62()
    ensures Pow2(62) == 0x4000_0000_0000_0000
  {
    assert Pow2(8) == 0x100;
    Pow2Add(8, 8);
    Pow2Add(16, 16);
    Pow2Add(32, 16);
    Pow2Add(48, 8);
    Pow2Add(56, 6);
    assert Pow2(6) == 0x40;
  }

  lemma Pow2FitsInLong(n: nat)
    requires n <= 62
    ensures Pow2(n) <= LongMax
  {
    Pow2Monotone(n, 62);
    Pow2Of62();
  }

  /**
   * `Math.round(Math.pow(2, n))` for an `int` exponent. Powers of two are exact
   * doubles, so the result is 2^n while that fits in a `long`; from 2^63 on
   * `Math.round` saturates at `Long.MAX_VALUE`. For negative `n` the double is
   * 0.5, 0.25, ..., which rounds (half up) to 1 for n = -1 and to 0 below.
   */
  function MathRoundPow2(n: Int32): (r: Int64)
    ensures 0 <= n <= 62 ==> r == Pow2(n)
    ensures n > 62 ==> r == LongMax
    ensures r >= 0
  {
    if n < -1 then 0
    else if n == -1 then 1
    else if n <= 62 then Pow2FitsInLong(n); Pow2(n)
    else LongMax
  }
}
