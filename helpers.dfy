/** The scalar helpers: `clamp`, `lerp` and `inverseLerp`. */
module Helpers {
  import opened Wrappers

  /**
   * `clamp(min, max, value)`: the value limited to the interval, computed as
   * `Math.min(Math.max(min, value), max)` (so an empty interval yields `max`).
   */
  function Clamp(min: real, max: real, value: real): (r: real)
    ensures min <= max ==> min <= r <= max
    ensures min <= value <= max ==> r == value
    ensures value < min ==> r == if min <= max then min else max
    ensures value > max ==> r == max
  {
    var low := if min >= value then min else value;
    if low <= max then low else max
  }

  /** Clamping is idempotent: a clamped value stays where it is. */
  lemma ClampIdempotent(min: real, max: real, value: real)
    requires min <= max
    ensures Clamp(min, max, Clamp(min, max, value)) == Clamp(min, max, value)
  {
  }

  /** Clamping preserves order: it is a monotone map. */
  lemma ClampMonotone(min: real, max: real, u: real, v: real)
    requires u <= v
    ensures Clamp(min, max, u) <= Clamp(min, max, v)
  {
  }

  /** `lerp(start, end, percent)`: the point `percent` of the way from start to end; any percent is allowed. */
  function Lerp(start: real, end: real, percent: real): (r: real)
    ensures percent == 0.0 ==> r == start
    ensures percent == 1.0 ==> r == end
  {
    start + (end - start) * percent
  }

  /** For a percentage in [0, 1] the interpolated point lies between the endpoints. */
  lemma LerpBetween(start: real, end: real, percent: real)
    requires start <= end && 0.0 <= percent <= 1.0
    ensures start <= Lerp(start, end, percent) <= end
  {
    var d := end - start;
    assert 0.0 <= d * percent;
    assert d * percent <= d * 1.0 by {
      assert d * (1.0 - percent) >= 0.0;
    }
  }

  /**
   * `inverseLerp(start, end, value)`: `(value - start) / (end - start)`. When
   * `start == end` JavaScript yields a non-finite number, modelled as `None`.
   */
  function InverseLerp(start: real, end: real, value: real): (r: Option<real>)
    ensures r.None? <==> start == end
    ensures r.Some? ==> Lerp(start, end, r.value) == value
  {
    if start == end then None else Some((value - start) / (end - start))
  }

  /** `inverseLerp` undoes `lerp` for every percentage, including ones outside [0, 1]. */
  lemma InverseLerpOfLerp(start: real, end: real, percent: real)
    requires start != end
    ensures InverseLerp(start, end, Lerp(start, end, percent)) == Some(percent)
  {
    var d := end - start;
    assert Lerp(start, end, percent) - start == d * percent;
    assert (d * percent) / d == percent;
  }

  /** The interpolations asserted for `lerp` and `inverseLerp`. */
  lemma LerpExamples()
    ensures Lerp(10.0, 20.0, 0.5) == 15.0 && Lerp(-10.0, 20.0, 0.5) == 5.0
    ensures Lerp(10.0, 20.0, 2.0) == 30.0 && Lerp(10.0, 20.0, -1.0) == 0.0
    ensures InverseLerp(10.0, 20.0, 15.0) == Some(0.5) && InverseLerp(-10.0, 20.0, 5.0) == Some(0.5)
    ensures InverseLerp(10.0, 20.0, 30.0) == Some(2.0) && InverseLerp(10.0, 20.0, 0.0) == Some(-1.0)
  {
  }
}
