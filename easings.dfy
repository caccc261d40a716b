/**
 * The counter's easing curves (`easingFunctions` in
 * packages/registry/registry/ui/animated-counter.tsx), over the reals.
 *
 * `linear`, `easeOut` and `easeInOut` are polynomials and are modelled
 * exactly. The interior of `spring` is transcendental (a power of two times a
 * sine); it is a parameter `wave` standing for what the host's `Math` library
 * computes, and only the two endpoint cases the source writes out are fixed.
 */
module Easings {

  datatype Curve = Linear | EaseOut | EaseInOut | Spring

  /** The host's `2^(-10t) * sin((10t - 0.75) * 2π/3) + 1`. */
  type Wave = real -> real

  /** `Math.pow(x, 3)`. */
  function Cube(x: real): (c: real)
    ensures x == 0.0 ==> c == 0.0
    ensures x == 1.0 ==> c == 1.0
  {
    x * x * x
  }

  /** `easingFunctions[curve](t)`. Every curve starts at exactly 0 and ends at
      exactly 1; for `spring` this holds only because of its two explicit
      endpoint cases. */
  function Ease(curve: Curve, wave: Wave, t: real): (r: real)
    ensures t == 0.0 ==> r == 0.0
    ensures t == 1.0 ==> r == 1.0
  {
    match curve
    case Linear => t
    case EaseOut => 1.0 - Cube(1.0 - t)
    case EaseInOut => if t < 0.5 then 4.0 * Cube(t) else 1.0 - Cube(-2.0 * t + 2.0) / 2.0
    case Spring => if t == 0.0 then 0.0 else if t == 1.0 then 1.0 else wave(t)
  }

  /** The curves that never leave [0, 1] on [0, 1]. */
  predicate Bounded(curve: Curve) {
    !curve.Spring?
  }

  /** The two halves of `easeInOut` meet at t = 0.5, both giving 0.5, so the
      curve has no jump where it switches formula. */
  lemma EaseInOutHalvesMeet(wave: Wave)
    ensures 4.0 * Cube(0.5) == 0.5
    ensures 1.0 - Cube(-2.0 * 0.5 + 2.0) / 2.0 == 0.5
    ensures Ease(EaseInOut, wave, 0.5) == 0.5
  {
  }

  lemma CubeInUnit(x: real)
    requires 0.0 <= x <= 1.0
    ensures 0.0 <= Cube(x) <= 1.0
  {
    assert 0.0 <= x * x <= x;
    assert x * x * x <= x * x;
  }

  lemma CubeMonotone(a: real, b: real)
    requires 0.0 <= a <= b
    ensures Cube(a) <= Cube(b)
  {
  }

  /** `linear`, `easeOut` and `easeInOut` map [0, 1] into [0, 1]. */
  lemma EaseInUnit(curve: Curve, wave: Wave, t: real)
    requires Bounded(curve) && 0.0 <= t <= 1.0
    ensures 0.0 <= Ease(curve, wave, t) <= 1.0
  {
    match curve
    case Linear =>
    case EaseOut => CubeInUnit(1.0 - t);
    case EaseInOut =>
      if t < 0.5 {
        CubeMonotone(t, 0.5);
        CubeInUnit(t);
      } else {
        CubeInUnit(-2.0 * t + 2.0);
      }
  }

  /** `linear`, `easeOut` and `easeInOut` are non-decreasing on [0, 1]. */
  lemma EaseMonotone(curve: Curve, wave: Wave, s: real, t: real)
    requires Bounded(curve) && 0.0 <= s <= t <= 1.0
    ensures Ease(curve, wave, s) <= Ease(curve, wave, t)
  {
    match curve
    case Linear =>
    case EaseOut => CubeMonotone(1.0 - t, 1.0 - s);
    case EaseInOut =>
      if t < 0.5 {
        CubeMonotone(s, t);
      } else if s >= 0.5 {
        CubeMonotone(-2.0 * t + 2.0, -2.0 * s + 2.0);
      } else {
        // The lower half stays below 0.5 and the upper half above it.
        CubeMonotone(s, 0.5);
        CubeInUnit(-2.0 * t + 2.0);
      }
  }
}
