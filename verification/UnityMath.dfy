/** The handful of Unity `Mathf` helpers and C# numeric conversions that the
    vehicle scripts rely on, written over exact reals.  Each one follows the
    engine's definition branch for branch (which bound `Clamp` tests first,
    `Sign(0) == 1`, `Lerp` clamping its parameter), because the properties
    proved elsewhere depend on exactly those choices.
 */
module UnityMath {

  /** `float.MaxValue`, the initial "no best lap yet" sentinel. */
  const FloatMaxValue: real := 340282346638528859811704183484516925440.0

  /** `Mathf.Deg2Rad` as the single-precision constant the engine stores. */
  const Deg2Rad: real := 0.0174532924

  /** `Mathf.Epsilon`, the smallest positive single-precision value. */
  const FloatEpsilon: real := 0.000000000000000000000000000000000000000000001401298

  function Abs(x: real): (r: real)
    ensures r >= 0.0
    ensures r == x || r == -x
  {
    if x < 0.0 then -x else x
  }

  function Max(a: real, b: real): (r: real)
    ensures r >= a && r >= b
    ensures r == a || r == b
  {
    if a > b then a else b
  }

  function Min(a: real, b: real): (r: real)
    ensures r <= a && r <= b
    ensures r == a || r == b
  {
    if a < b then a else b
  }

  /** `Mathf.Sign`: zero counts as positive. */
  function Sign(x: real): (r: real)
    ensures r == 1.0 <==> x >= 0.0
    ensures r == -1.0 <==> x < 0.0
  {
    if x >= 0.0 then 1.0 else -1.0
  }

  /** `Mathf.Clamp`: the lower bound is compared first, so with `lo > hi`
      every value at or above `lo` comes out as `hi`. */
  function Clamp(v: real, lo: real, hi: real): (r: real)
    ensures lo <= hi ==> lo <= r <= hi
    ensures lo <= v <= hi ==> r == v
    ensures lo <= hi && v < lo ==> r == lo
    ensures lo <= hi && v > hi ==> r == hi
  {
    if v < lo then lo else if v > hi then hi else v
  }

  /** `Mathf.Clamp01`. */
  function Clamp01(v: real): (r: real)
    ensures 0.0 <= r <= 1.0
    ensures 0.0 <= v <= 1.0 ==> r == v
    ensures v <= 0.0 ==> r == 0.0
    ensures v >= 1.0 ==> r == 1.0
  {
    if v < 0.0 then 0.0 else if v > 1.0 then 1.0 else v
  }

  /** The point `s` of the way along a step `d` from `a` (`s` outside
      [0, 1] extrapolates). */
  function Offset(a: real, d: real, s: real): (r: real)
    ensures s == 0.0 ==> r == a
    ensures s == 1.0 ==> r == a + d
  {
    a + d * s
  }

  /** For `s` in [0, 1] the point stays between `a` and `a + d`. */
  lemma OffsetBetween(a: real, d: real, s: real)
    requires 0.0 <= s <= 1.0
    ensures d >= 0.0 ==> a <= Offset(a, d, s) <= a + d
    ensures d <= 0.0 ==> a + d <= Offset(a, d, s) <= a
  {
  }

  /** `Mathf.Lerp`: the interpolation parameter is clamped to [0, 1], so the
      result never leaves the segment between the two end points. */
  function Lerp(a: real, b: real, t: real): (r: real)
    ensures a <= b ==> a <= r <= b
    ensures b <= a ==> b <= r <= a
    ensures t <= 0.0 ==> r == a
    ensures t >= 1.0 ==> r == b
  {
    OffsetBetween(a, b - a, Clamp01(t));
    Offset(a, b - a, Clamp01(t))
  }

  /** `Mathf.MoveTowards`: step from `current` toward `target` by at most
      `maxDelta`, landing exactly on the target when it is that close. */
  function MoveTowards(current: real, target: real, maxDelta: real): (r: real)
    ensures Abs(target - current) <= maxDelta ==> r == target
    ensures maxDelta >= 0.0 ==> Min(current, target) <= r <= Max(current, target)
    ensures maxDelta >= 0.0 ==> Abs(r - current) <= maxDelta
    ensures maxDelta >= 0.0 ==> Abs(target - r) <= Abs(target - current)
    ensures r == target || Abs(r - current) == Abs(maxDelta)
  {
    if Abs(target - current) <= maxDelta then target
    else if Sign(target - current) == 1.0 then current + maxDelta
    else current - maxDelta
  }

  /** A larger fraction of a non-positive step lands no further along. */
  lemma OffsetAntitone(a: real, d: real, s1: real, s2: real)
    requires d <= 0.0 && s1 <= s2
    ensures Offset(a, d, s2) <= Offset(a, d, s1)
  {
    MulMono(-d, s1, s2);
  }

  /** The quotient of a part by a positive whole, which lies in [0, 1]. */
  function Fraction(x: real, y: real): (r: real)
    requires y != 0.0
    ensures x == 0.0 ==> r == 0.0
    ensures x == y ==> r == 1.0
    ensures y > 0.0 && 0.0 <= x <= y ==> 0.0 <= r <= 1.0
  {
    x / y
  }

  /** Multiplying by a non-negative factor preserves order. */
  lemma MulMono(a: real, x: real, y: real)
    requires a >= 0.0 && x <= y
    ensures a * x <= a * y
  {
    assert a * y - a * x == a * (y - x);
  }

  /** Multiplying by a positive factor preserves strict order. */
  lemma MulStrict(a: real, x: real, y: real)
    requires a > 0.0 && x < y
    ensures a * x < a * y
  {
    assert a * y - a * x == a * (y - x);
  }

  /** The product of two positive values is positive. */
  lemma PositiveProduct(a: real, b: real)
    requires a > 0.0 && b > 0.0
    ensures a * b > 0.0
  {
    MulStrict(a, 0.0, b);
  }

  /** The product of two non-negative values is non-negative. */
  lemma NonNegativeProduct(a: real, b: real)
    requires a >= 0.0 && b >= 0.0
    ensures a * b >= 0.0
  {
    MulMono(a, 0.0, b);
  }

  /** `Mathf.Approximately`: equality up to a relative tolerance of 1e-6,
      with an absolute floor of eight times the smallest float. */
  predicate Approximately(a: real, b: real)
  {
    Abs(b - a) < Max(0.000001 * Max(Abs(a), Abs(b)), FloatEpsilon * 8.0)
  }

  /** Comparing with zero, `Approximately` accepts exactly the values below
      the absolute floor. */
  lemma ApproximatelyZero(a: real)
    ensures Approximately(a, 0.0) <==> Abs(a) < FloatEpsilon * 8.0
  {
  }

  /** The C# `(int)` conversion of a float: truncation toward zero. */
  function Trunc(x: real): (r: int)
    ensures x >= 0.0 ==> r == x.Floor
    ensures Abs(x - r as real) < 1.0
    ensures Abs(r as real) <= Abs(x)
    ensures (r >= 0) == (x > -1.0)
  {
    if x >= 0.0 then x.Floor else -((-x).Floor)
  }

  /** C# integer division, which truncates toward zero: for a positive
      divisor the quotient times the divisor lies within one divisor of the
      dividend, on the side toward zero. */
  function TruncDiv(a: int, b: int): (q: int)
    requires b > 0
    ensures a >= 0 ==> q * b <= a < q * b + b
    ensures a <= 0 ==> q * b - b < a <= q * b
    ensures a >= 0 ==> q == a / b
  {
    if a >= 0 then a / b else -((-a) / b)
  }

  /** The C# float remainder `%` (fmod): what is left of `x` after taking
      out the divisor `m` a whole number of times, rounding toward zero. */
  function FMod(x: real, m: real): real
    requires m > 0.0
  {
    var q := Trunc(x / m);
    x - m * (q as real)
  }
}
