/** The parts of Java's value semantics the model needs: 32- and 64-bit integer
    ranges with two's-complement wrap-around, truncating division and remainder,
    the saturating double-to-int cast, and the exceptions and null references the
    modelled code can produce. */
module JavaSemantics {

  const INT_MIN: int := -0x8000_0000
  const INT_MAX: int := 0x7FFF_FFFF
  const LONG_MIN: int := -0x8000_0000_0000_0000
  const LONG_MAX: int := 0x7FFF_FFFF_FFFF_FFFF

  /** A Java `int` value. */
  type Int32 = x: int | -0x8000_0000 <= x <= 0x7FFF_FFFF

  /** A reference that may be `null`. */
  datatype Option<+T> = None | Some(value: T)

  /** The exceptions the modelled code throws. */
  datatype Exception = IllegalArgumentException | NullPointerException

  /** The outcome of a Java call that either returns a value or throws. */
  datatype Result<+T> = Ok(value: T) | Throws(error: Exception)

  /** A Java `void` call that either returns or throws. */
  datatype Outcome = Returned | Threw(error: Exception)

  /** Two's-complement wrap-around of an integer into the `long` range. */
  function Wrap64(x: int): (r: int)
    ensures LONG_MIN <= r <= LONG_MAX
    ensures LONG_MIN <= x <= LONG_MAX ==> r == x
  {
    (x + 0x8000_0000_0000_0000) % 0x1_0000_0000_0000_0000 - 0x8000_0000_0000_0000
  }

  /** `Math.abs` on a `long`: negation wraps, so the most negative `long` is its
      own absolute value. */
  function LongAbs(x: int): (r: int)
    requires LONG_MIN <= x <= LONG_MAX
    ensures x != LONG_MIN ==> r == IntAbs(x)
    ensures x == LONG_MIN ==> r == LONG_MIN
  {
    if x < 0 then Wrap64(-x) else x
  }

  /** Two's-complement wrap-around of an integer into the `int` range, as every
      Java `int` arithmetic operation and `(int)` cast of a `long` performs. */
  function Wrap32(x: int): (r: Int32)
    ensures INT_MIN <= x <= INT_MAX ==> r == x
    ensures (x - r) % 0x1_0000_0000 == 0
  {
    (x + 0x8000_0000) % 0x1_0000_0000 - 0x8000_0000
  }

  lemma ModOfMultipleShift(n: int, k: int)
    ensures (n + 0x1_0000_0000 * k) % 0x1_0000_0000 == n % 0x1_0000_0000
  {
    var q, r := n / 0x1_0000_0000, n % 0x1_0000_0000;
    assert n + 0x1_0000_0000 * k == 0x1_0000_0000 * (q + k) + r;
  }

  function IntAbs(x: int): nat { if x < 0 then -x else x }

  /** Adding a multiple of 2^32 does not change the wrapped value. */
  lemma Wrap32Shift(x: int, k: int)
    ensures Wrap32(x + 0x1_0000_0000 * k) == Wrap32(x)
  {
    ModOfMultipleShift(x + 0x8000_0000, k);
  }

  /** Wrapping an intermediate product does not change the wrapped result: Java's
      step-by-step `int` multiplication agrees with exact multiplication followed
      by one wrap. */
  lemma Wrap32Mul(a: int, b: int)
    ensures Wrap32(Wrap32(a) * b) == Wrap32(a * b)
  {
    var j := (a - Wrap32(a)) / 0x1_0000_0000;
    assert a == Wrap32(a) + 0x1_0000_0000 * j;
    assert a * b == Wrap32(a) * b + 0x1_0000_0000 * (j * b);
    Wrap32Shift(Wrap32(a) * b, j * b);
  }

  lemma DivSelf(n: nat)
    requires n > 0
    ensures n / n == 1
  {
    assert n == n * 1 + 0;
  }

  /** Java's `/` on integers: the quotient rounded toward zero. */
  function TruncDiv(a: int, b: int): (q: int)
    requires b != 0
    ensures IntAbs(a) == IntAbs(b) ==> q == if (a >= 0) == (b > 0) then 1 else -1
  {
    assert IntAbs(a) == IntAbs(b) ==> IntAbs(a) / IntAbs(b) == 1 by {
      if IntAbs(a) == IntAbs(b) { DivSelf(IntAbs(b)); }
    }
    if (a >= 0) == (b > 0) then IntAbs(a) / IntAbs(b) else -(IntAbs(a) / IntAbs(b))
  }

  /** The integer part of a real, rounded toward zero. */
  function Trunc(x: real): (n: int)
    ensures 0.0 <= x ==> 0 <= n && n as real <= x < n as real + 1.0
    ensures x < 0.0 ==> n <= 0 && n as real - 1.0 < x <= n as real
  {
    if x >= 0.0 then x.Floor else -((-x).Floor)
  }

  /** Java's `%` by 360 on doubles: the remainder of the division truncated
      toward zero, which takes the sign of the dividend. */
  function JavaRem360(a: real): (r: real)
    ensures 0.0 <= a ==> 0.0 <= r < 360.0
    ensures a < 0.0 ==> -360.0 < r <= 0.0
  {
    a - 360.0 * (Trunc(a / 360.0) as real)
  }

  /** Saturation of a mathematical integer into [lo, hi]. */
  function Saturate(lo: int, x: int, hi: int): (r: int)
    requires lo <= hi
    ensures lo <= r <= hi
    ensures lo <= x <= hi ==> r == x
  {
    if x < lo then lo else if x > hi then hi else x
  }
}
