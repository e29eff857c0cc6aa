/** The arithmetic helpers of the robot library (class RobotMath): angle
    normalisation and distance, sign, clamping, dead-band thresholding, integer
    powers, squares, absolute values and the range-checked conversions from
    double to int. Java `double` is modelled as `real` and Java `int` as
    `Int32` with two's-complement wrap-around. */
module RobotMath {
  import opened JavaSemantics

  // ---------------------------------------------------------------------------
  // Angles
  // ---------------------------------------------------------------------------

  /** Limits an angle to [0, 360) degrees: `((angle % 360) + 360) % 360` with
      Java's truncated remainder. */
  function NormalizeAngle(angle: real): (theta: real)
    ensures 0.0 <= theta < 360.0
  {
    JavaRem360(JavaRem360(angle) + 360.0)
  }

  /** Shifting a real by an integer shifts its floor by the same integer. */
  lemma FloorShift(x: real, n: int)
    ensures (x + n as real).Floor == x.Floor + n
  {
    var f := x.Floor;
    assert f as real + n as real <= x + n as real < (f + n) as real + 1.0;
  }

  /** The two truncated remainders compose to the floored (Euclidean) remainder. */
  lemma {:induction false} NormalizeAngleIsFloorMod(angle: real)
    ensures NormalizeAngle(angle) == angle - 360.0 * ((angle / 360.0).Floor as real)
  {
    var t := Trunc(angle / 360.0);
    var u := JavaRem360(angle) + 360.0;
    assert u == angle - 360.0 * (t as real) + 360.0;
    assert u / 360.0 == angle / 360.0 + (1 - t) as real;
    FloorShift(angle / 360.0, 1 - t);
    assert Trunc(u / 360.0) == (angle / 360.0).Floor + 1 - t;
  }

  /** The normalised angle is the one value in [0, 360) that differs from the
      input by a whole number of turns. */
  lemma {:induction false} NormalizeAngleUnique(angle: real, r: real, k: int)
    requires 0.0 <= r < 360.0
    requires r == angle + 360.0 * (k as real)
    ensures NormalizeAngle(angle) == r
  {
    NormalizeAngleIsFloorMod(angle);
    assert r / 360.0 == angle / 360.0 + k as real;
    FloorShift(angle / 360.0, k);
    assert (r / 360.0).Floor == 0;
  }

  /** Whole turns do not change the normalised angle. */
  lemma {:induction false} NormalizeAnglePeriodic(angle: real, k: int)
    ensures NormalizeAngle(angle + 360.0 * (k as real)) == NormalizeAngle(angle)
  {
    NormalizeAngleIsFloorMod(angle);
    var f := (angle / 360.0).Floor;
    NormalizeAngleUnique(angle + 360.0 * (k as real), NormalizeAngle(angle), -f - k);
  }

  /** Normalising twice is normalising once. */
  lemma {:induction false} NormalizeAngleIdempotent(angle: real)
    ensures NormalizeAngle(NormalizeAngle(angle)) == NormalizeAngle(angle)
  {
    NormalizeAngleUnique(NormalizeAngle(angle), NormalizeAngle(angle), 0);
  }

  /** Signed difference between two angles; with `shortWay` the result is moved
      by a whole turn so that its magnitude is at most 180 degrees. */
  function AngleDistance(angle1: real, angle2: real, shortWay: bool): (dist: real)
    ensures shortWay ==> -180.0 <= dist <= 180.0
    ensures !shortWay ==> dist == NormalizeAngle(angle2) - NormalizeAngle(angle1)
    ensures -360.0 < dist < 360.0
  {
    var d := NormalizeAngle(angle2) - NormalizeAngle(angle1);
    if shortWay && Abs(d) > 180.0 then -Sgn(d) * (360.0 - Abs(d)) else d
  }

  /** Turning from `angle1` by the angle distance lands on `angle2`'s heading. */
  lemma {:induction false} AngleDistanceLands(angle1: real, angle2: real, shortWay: bool)
    ensures NormalizeAngle(angle1 + AngleDistance(angle1, angle2, shortWay)) == NormalizeAngle(angle2)
  {
    var n1, n2 := NormalizeAngle(angle1), NormalizeAngle(angle2);
    var d := n2 - n1;
    var m := if shortWay && Abs(d) > 180.0 then (if d > 0.0 then -1 else 1) else 0;
    assert AngleDistance(angle1, angle2, shortWay) == d + 360.0 * (m as real);
    NormalizeAngleIsFloorMod(angle1);
    var f1 := (angle1 / 360.0).Floor;
    assert angle1 + AngleDistance(angle1, angle2, shortWay) == n2 + 360.0 * ((f1 + m) as real);
    NormalizeAnglePeriodic(n2, f1 + m);
    NormalizeAngleIdempotent(angle2);
  }

  /** Rotation direction of a motor. */
  datatype MotorDir = CW | CCW | NONE

  /** The direction in which a motor at `currentAngle` should turn to reach
      `targetAngle`; NONE once the two headings are within 0.001 degrees. */
  function GetMotorDirToTarget(currentAngle: real, targetAngle: real, shortWay: bool): (dir: MotorDir)
    ensures dir == NONE <==> Abs(NormalizeAngle(currentAngle) - NormalizeAngle(targetAngle)) < 0.001
    ensures dir != NONE ==> (dir == CW <==> AngleDistance(currentAngle, targetAngle, shortWay) > 0.0)
  {
    var c := NormalizeAngle(currentAngle);
    var t := NormalizeAngle(targetAngle);
    var retDir := 1 * (if shortWay && Abs(c - t) > 180.0 then 1 else -1) * (if c - t < 0.0 then -1 else 1);
    if Abs(c - t) < 0.001 then NONE
    else if retDir == 1 then CW else CCW
  }

  // ---------------------------------------------------------------------------
  // Sign, absolute value, clamping, thresholds
  // ---------------------------------------------------------------------------

  /** Absolute value of a double. */
  function Abs(number: real): (r: real)
    ensures r >= 0.0 && (r == number || r == -number)
  {
    if number < 0.0 then -number else number
  }

  /** Absolute value of an int; negating the most negative int wraps back to it,
      as in Java. */
  function AbsInt(number: Int32): (r: Int32)
    ensures number != INT_MIN ==> r >= 0 && (r == number || r == -number)
    ensures number == INT_MIN ==> r == INT_MIN
  {
    if number < 0 then Wrap32(-(number as int)) else number
  }

  /** Sign of a double: `|n| / n`, or 0 for 0. */
  function Sgn(n: real): (r: real)
    ensures r == 0.0 <==> n == 0.0
    ensures n > 0.0 ==> r == 1.0
    ensures n < 0.0 ==> r == -1.0
  {
    if n == 0.0 then 0.0 else Abs(n) / n
  }

  /** Sign of an int as written: `Math.abs(n) / n` with Java's wrapping
      absolute value and truncating division. */
  function SgnInt(n: Int32): (r: Int32)
    ensures r == 0 <==> n == 0
    ensures n > 0 ==> r == 1
    ensures INT_MIN < n < 0 ==> r == -1
    ensures n == INT_MIN ==> r == 1
  {
    if n == 0 then 0 else TruncDiv(AbsInt(n), n)
  }

  /** The most negative int is reported as positive by SgnInt. */
  lemma SgnIntOfIntMinIsPositive()
    ensures SgnInt(INT_MIN) == 1
  {}

  /** Sign of an int as documented: 1, 0 or -1 by the sign of `n`. */
  function SgnIntIntended(n: Int32): (r: Int32)
    ensures r == 0 <==> n == 0
    ensures n > 0 ==> r == 1
    ensures n < 0 ==> r == -1
  {
    if n == 0 then 0 else if n < 0 then -1 else 1
  }

  /** `Math.min(Math.max(value, minimum), maximum)` on ints. */
  function ClampInt(value: Int32, minimum: Int32, maximum: Int32): (r: Int32)
    ensures minimum <= maximum ==> minimum <= r <= maximum
    ensures minimum <= value <= maximum ==> r == value
    ensures minimum <= maximum && value < minimum ==> r == minimum
    ensures value > maximum || maximum < minimum ==> r == maximum
  {
    var lower := if value > minimum then value else minimum;
    if lower < maximum then lower else maximum
  }

  /** `Math.min(Math.max(value, minimum), maximum)` on doubles. */
  function Clamp(value: real, minimum: real, maximum: real): (r: real)
    ensures minimum <= maximum ==> minimum <= r <= maximum
    ensures minimum <= value <= maximum ==> r == value
    ensures minimum <= maximum && value < minimum ==> r == minimum
    ensures value > maximum || maximum < minimum ==> r == maximum
  {
    var lower := if value > minimum then value else minimum;
    if lower < maximum then lower else maximum
  }

  /** Clamping an already clamped value changes nothing. */
  lemma ClampIdempotent(value: real, minimum: real, maximum: real)
    requires minimum <= maximum
    ensures Clamp(Clamp(value, minimum, maximum), minimum, maximum) == Clamp(value, minimum, maximum)
  {}

  /** clampPosNeg1 as written: the result of the clamp is discarded and the
      argument comes back unchanged. */
  function ClampPosNeg1(d: real): (r: real)
    ensures r == d
  {
    var _ := Clamp(d, -1.0, 1.0);
    d
  }

  /** A value outside [-1, 1] passes through ClampPosNeg1 unclamped. */
  lemma ClampPosNeg1LeavesTwo()
    ensures ClampPosNeg1(2.0) == 2.0 && ClampPosNeg1Intended(2.0) == 1.0
  {}

  /** clampPosNeg1 as documented: the value clamped to [-1, 1]. */
  function ClampPosNeg1Intended(d: real): (r: real)
    ensures -1.0 <= r <= 1.0
    ensures -1.0 <= d <= 1.0 ==> r == d
    ensures d > 1.0 ==> r == 1.0
    ensures d < -1.0 ==> r == -1.0
  {
    Clamp(d, -1.0, 1.0)
  }

  /** Dead band: 0 when `|value| < |threshold|`, otherwise the value itself. */
  function Thresh(value: real, threshold: real): (r: real)
    ensures r == 0.0 || r == value
    ensures Abs(value) < Abs(threshold) ==> r == 0.0
    ensures r != value ==> Abs(value) < Abs(threshold)
  {
    if Abs(value) < Abs(threshold) then 0.0 else value
  }

  /** Applying the dead band twice is applying it once. */
  lemma ThreshIdempotent(value: real, threshold: real)
    ensures Thresh(Thresh(value, threshold), threshold) == Thresh(value, threshold)
  {}

  /** Ground distance covered by a wheel of the given circumference turning by
      `deg` degrees. */
  function AngularDistToLinear(deg: real, circumference: real): (r: real)
    ensures deg == 360.0 ==> r == circumference
    ensures deg == 0.0 ==> r == 0.0
  {
    (deg / 360.0) * circumference
  }

  /** Angular distances add up to the sum of their linear distances. */
  lemma AngularDistToLinearAdditive(deg1: real, deg2: real, circumference: real)
    ensures AngularDistToLinear(deg1 + deg2, circumference)
         == AngularDistToLinear(deg1, circumference) + AngularDistToLinear(deg2, circumference)
  {}

  // ---------------------------------------------------------------------------
  // Squares and integer powers
  // ---------------------------------------------------------------------------

  /** Square of a double. */
  function Square(number: real): (r: real)
    ensures r >= 0.0
    ensures r == Abs(number) * Abs(number)
  {
    number * number
  }

  /** Square of an int, wrapped to 32 bits as Java's `int` product is. */
  function SquareInt(number: Int32): (r: Int32)
    ensures -46340 <= number <= 46340 ==> r == number * number && r >= 0
  {
    if -46340 <= number <= 46340 then SmallSquareFits(number); Wrap32(number * number)
    else Wrap32(number * number)
  }

  lemma MulNonNegative(a: int, b: int)
    requires a >= 0 && b >= 0
    ensures a * b >= 0
  {}

  /** The square of an int of magnitude at most 46340 fits in an int. */
  lemma SmallSquareFits(n: int)
    requires -46340 <= n <= 46340
    ensures 0 <= n * n <= INT_MAX
  {
    var m := IntAbs(n);
    assert n * n == m * m;
    MulNonNegative(46340 - m, m);
    MulNonNegative(46340 - m, 46340);
    assert m * m == 46340 * m - (46340 - m) * m;
  }

  /** An int square that overflows: 65536 squared wraps to 0. */
  lemma SquareIntWraps()
    ensures SquareInt(65536) == 0
  {}

  /** Exact integer power. */
  function Pow(n: int, p: nat): int
  {
    if p == 0 then 1 else n * Pow(n, p - 1)
  }

  /** Exact real power. */
  function RealPow(n: real, p: nat): real
  {
    if p == 0 then 1.0 else n * RealPow(n, p - 1)
  }

  /** Powers multiply when their exponents add. */
  lemma {:induction false} PowAdd(n: int, a: nat, b: nat)
    ensures Pow(n, a + b) == Pow(n, a) * Pow(n, b)
  {
    if a > 0 {
      PowAdd(n, a - 1, b);
      assert Pow(n, a + b) == n * Pow(n, a - 1 + b);
    }
  }

  /** One more multiplication by `n` on the wrapped power gives the wrapped
      next power: the step intPow(int, int) takes on each iteration. */
  lemma {:induction false} WrappedPowStep(n: int, p: nat)
    ensures Wrap32(Wrap32(Pow(n, p)) * n) == Wrap32(Pow(n, p + 1))
  {
    Wrap32Mul(Pow(n, p), n);
    assert Pow(n, p) * n == Pow(n, p + 1);
  }

  /** Raises an int to a power by repeated multiplication; a power below 1
      performs no multiplication and yields 1. */
  method IntPow(number: Int32, power: Int32) returns (result: Int32)
    ensures result == Wrap32(Pow(number, if power >= 1 then power else 0))
    ensures power <= 0 ==> result == 1
  {
    result := 1;
    var p := power;
    ghost var done: nat := 0;
    while p >= 1
      invariant power >= 1 ==> 0 <= p && done == power - p
      invariant power < 1 ==> p == power && done == 0
      invariant result == Wrap32(Pow(number, done))
      decreases p
    {
      WrappedPowStep(number, done);
      result := Wrap32(result * number);
      p := p - 1;
      done := done + 1;
    }
  }

  /** Raises a double to a power by repeated multiplication; a power below 1
      performs no multiplication and yields 1. */
  method IntPowReal(number: real, power: Int32) returns (result: real)
    ensures result == RealPow(number, if power >= 1 then power else 0)
    ensures power <= 0 ==> result == 1.0
  {
    result := 1.0;
    var p := power;
    ghost var done: nat := 0;
    while p >= 1
      invariant power >= 1 ==> 0 <= p && done == power - p
      invariant power < 1 ==> p == power && done == 0
      invariant result == RealPow(number, done)
      decreases p
    {
      result := result * number;
      p := p - 1;
      done := done + 1;
    }
  }

  // ---------------------------------------------------------------------------
  // Range-checked conversions to int
  // ---------------------------------------------------------------------------

  /** `Math.round(double)`: the closest `long`, ties toward positive infinity,
      saturating at the ends of the `long` range. */
  function MathRound(d: real): (r: int)
    ensures LONG_MIN <= r <= LONG_MAX
    ensures LONG_MIN <= (d + 0.5).Floor <= LONG_MAX ==> d - 0.5 < r as real <= d + 0.5
    ensures (d + 0.5).Floor < LONG_MIN ==> r == LONG_MIN
    ensures (d + 0.5).Floor > LONG_MAX ==> r == LONG_MAX
  {
    Saturate(LONG_MIN, (d + 0.5).Floor, LONG_MAX)
  }

  /** round as written: the rounded `long` is rejected when `Math.abs` of it
      exceeds the largest int, and otherwise cast to int. */
  function Round(d: real): (r: Result<Int32>)
    ensures -INT_MAX <= (d + 0.5).Floor <= INT_MAX ==> r == Ok((d + 0.5).Floor)
    ensures INT_MAX < (d + 0.5).Floor ==> r == Throws(IllegalArgumentException)
    ensures LONG_MIN < (d + 0.5).Floor < -INT_MAX ==> r == Throws(IllegalArgumentException)
    ensures (d + 0.5).Floor <= LONG_MIN ==> r == Ok(0)
  {
    var rounded := MathRound(d);
    if LongAbs(rounded) > INT_MAX then Throws(IllegalArgumentException)
    else Ok(Wrap32(rounded))
  }

  /** The most negative int is representable, yet round rejects it; a double at
      or below -2^63 is accepted and rounds to 0. */
  lemma RoundAtTheEdges()
    ensures Round(-2147483648.0) == Throws(IllegalArgumentException)
    ensures Round(-10000000000000000000.0) == Ok(0)
  {}

  /** round as documented: the nearest int (ties toward positive infinity), or
      an exception exactly when that integer does not fit in an int. */
  function RoundIntended(d: real): (r: Result<Int32>)
    ensures r.Ok? <==> INT_MIN <= (d + 0.5).Floor <= INT_MAX
    ensures r.Ok? ==> d - 0.5 < r.value as real <= d + 0.5
    ensures r.Throws? ==> r.error == IllegalArgumentException
  {
    var rounded := (d + 0.5).Floor;
    if INT_MIN <= rounded <= INT_MAX then Ok(rounded) else Throws(IllegalArgumentException)
  }

  /** `(int)` applied to a whole double: values below the int range saturate to
      the most negative int. */
  function CastWholeToInt(x: int): (r: Int32)
    requires x <= INT_MAX
    ensures INT_MIN <= x ==> r == x
  {
    if x < INT_MIN then INT_MIN else x
  }

  /** ceil as written: only results above the int range throw. */
  function Ceil(d: real): (r: Result<Int32>)
    ensures r.Ok? <==> -((-d).Floor) <= INT_MAX
    ensures r.Ok? && INT_MIN <= -((-d).Floor) ==> r.value as real - 1.0 < d <= r.value as real
    ensures r.Ok? && -((-d).Floor) < INT_MIN ==> r.value == INT_MIN
  {
    var ceilinged := -((-d).Floor);
    if ceilinged > INT_MAX then Throws(IllegalArgumentException)
    else Ok(CastWholeToInt(ceilinged))
  }

  /** floor as written: only results above the int range throw. */
  function Floor(d: real): (r: Result<Int32>)
    ensures r.Ok? <==> d.Floor <= INT_MAX
    ensures r.Ok? && INT_MIN <= d.Floor ==> r.value as real <= d < r.value as real + 1.0
    ensures r.Ok? && d.Floor < INT_MIN ==> r.value == INT_MIN
  {
    var floored := d.Floor;
    if floored > INT_MAX then Throws(IllegalArgumentException)
    else Ok(CastWholeToInt(floored))
  }

  /** A double far below the int range is not rejected by floor or ceil: both
      return the most negative int, which is not its floor or ceiling. */
  lemma FloorCeilBelowRange()
    ensures Floor(-10000000000.0) == Ok(INT_MIN)
    ensures Ceil(-10000000000.0) == Ok(INT_MIN)
  {}

  /** ceil as documented: throws exactly when the ceiling is not an int. */
  function CeilIntended(d: real): (r: Result<Int32>)
    ensures r.Ok? <==> INT_MIN <= -((-d).Floor) <= INT_MAX
    ensures r.Ok? ==> r.value as real - 1.0 < d <= r.value as real
    ensures r.Throws? ==> r.error == IllegalArgumentException
  {
    var ceilinged := -((-d).Floor);
    if INT_MIN <= ceilinged <= INT_MAX then Ok(ceilinged) else Throws(IllegalArgumentException)
  }

  /** floor as documented: throws exactly when the floor is not an int. */
  function FloorIntended(d: real): (r: Result<Int32>)
    ensures r.Ok? <==> INT_MIN <= d.Floor <= INT_MAX
    ensures r.Ok? ==> r.value as real <= d < r.value as real + 1.0
    ensures r.Throws? ==> r.error == IllegalArgumentException
  {
    var floored := d.Floor;
    if INT_MIN <= floored <= INT_MAX then Ok(floored) else Throws(IllegalArgumentException)
  }
}
