/**
 * Python's `max`, `min` and `abs` on two reals, the clamp `max(lo, min(hi, v))`
 * both simulations use, and the trigonometric constants both simulations derive
 * from their 40-degree grey arm angle.
 */
module Numerics {

  /** cos(50 degrees): the gold arm's base angle is (180 - 40) - 90 = 50 degrees. */
  const COS50: real := 0.6427876096865394
  /** cos(40 degrees): the grey arm's angle from horizontal. */
  const COS40: real := 0.766044443118978
  const PI: real := 3.141592653589793

  /** Python's `math.radians`. */
  function Radians(deg: real): real
  {
    deg * (PI / 180.0)
  }

  /**
   * What a cosine and sine of one angle satisfy: each lies in [-1, 1] and
   * together they lie on the unit circle.
   */
  predicate UnitPair(c: real, s: real)
  {
    -1.0 <= c <= 1.0 && -1.0 <= s <= 1.0 && c * c + s * s == 1.0
  }

  /** Python's `max(a, b)`: the first argument unless the second is larger. */
  function Max(a: real, b: real): (r: real)
    ensures r >= a && r >= b
    ensures r == a || r == b
  {
    if b > a then b else a
  }

  /** Python's `min(a, b)`: the first argument unless the second is smaller. */
  function Min(a: real, b: real): (r: real)
    ensures r <= a && r <= b
    ensures r == a || r == b
  {
    if b < a then b else a
  }

  function Abs(x: real): (r: real)
    ensures r >= 0.0
    ensures r == x || r == -x
  {
    if x < 0.0 then -x else x
  }

  /**
   * `max(lo, min(hi, v))`. The result never falls below `lo`; it stays at or
   * below `hi` whenever the bounds are ordered, and a value already inside the
   * bounds is returned as it is.
   */
  function Clamp(lo: real, hi: real, v: real): (r: real)
    ensures lo <= r
    ensures lo <= hi ==> r <= hi
    ensures lo <= v <= hi ==> r == v
    ensures v < lo ==> r == lo
    ensures lo <= hi < v ==> r == hi
    ensures hi < lo ==> r == lo
  {
    Max(lo, Min(hi, v))
  }
}
