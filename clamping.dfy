/// The `max(lo, min(hi, x))` idiom that both simulators use to keep a
/// reading inside its physiological band.
module Clamping {

  /** Python's two-argument `min` over reals. */
  function Min(a: real, b: real): (m: real)
    ensures m <= a && m <= b
    ensures m == a || m == b
  {
    if a <= b then a else b
  }

  /** Python's two-argument `max` over reals. */
  function Max(a: real, b: real): (m: real)
    ensures a <= m && b <= m
    ensures m == a || m == b
  {
    if a >= b then a else b
  }

  /** `max(lo, min(hi, x))`: the point of `[lo, hi]` nearest to `x`. */
  function Clamp(lo: real, hi: real, x: real): (r: real)
    requires lo <= hi
    ensures lo <= r <= hi
    ensures lo <= x <= hi ==> r == x
    ensures x < lo ==> r == lo
    ensures x > hi ==> r == hi
  {
    Max(lo, Min(hi, x))
  }

  /** Clamping never moves a value toward the other side of its start:
      from an in-band `x`, adding `d` and clamping lands between `x` and `x + d`. */
  lemma ClampedStepWithin(lo: real, hi: real, x: real, d: real)
    requires lo <= x <= hi
    ensures d >= 0.0 ==> x <= Clamp(lo, hi, x + d) <= x + d
    ensures d <= 0.0 ==> x + d <= Clamp(lo, hi, x + d) <= x
  {
  }

  /** Clamping preserves order. */
  lemma ClampMonotone(lo: real, hi: real, x: real, y: real)
    requires lo <= hi
    requires x <= y
    ensures Clamp(lo, hi, x) <= Clamp(lo, hi, y)
  {
  }
}
