/** The distance-to-length mapping of the indicators: from the measured distance to the
    pointer, through the head offset and the ramp, to the length the indicator aims for. */
module LengthMapping {
  import opened UnityMath
  import opened Deadzone

  /** What `Mathf.SmoothDamp` hands back: the next value and the updated velocity. Its
      internals are the engine's; the indicators receive it as a function of the current
      value, the target, the velocity and the smoothing time. */
  datatype Damped = Damped(value: real, velocity: real)

  /** The smallest ramp length; a ramp distance below it is raised to it, so the ramp
      never divides by zero. */
  const MinRamp: real := 0.0001

  /** The distance before the head offset: the component along the facing direction
      (never negative) when the directional projection is on, the magnitude otherwise. */
  function ProjectedAlong(dWorld: real, dot: real, useProjection: bool): (r: real)
    ensures useProjection ==> r >= 0.0 && r >= dot
    ensures useProjection && dot >= 0.0 ==> r == dot
    ensures !useProjection ==> r == dWorld
  {
    if useProjection then Max(0.0, dot) else dWorld
  }

  /** The distance measured from the head's visual tip instead of the player, never negative. */
  function FromHeadTip(along: real, headOffset: real): (r: real)
    ensures r >= 0.0
    ensures r >= along - headOffset
    ensures r > 0.0 <==> along > headOffset
    ensures headOffset >= 0.0 && along >= 0.0 ==> r <= along
  {
    Max(0.0, along - headOffset)
  }

  /** The controller takes `Max(0, along)` once more after the head offset; that second
      floor never changes the value. */
  lemma DistFromEdgeIsAlong(along: real, headOffset: real)
    ensures Max(0.0, FromHeadTip(along, headOffset)) == FromHeadTip(along, headOffset)
  {
  }

  /** The ramp length actually used. */
  function RampSpan(rampDistance: real): (r: real)
    ensures r >= MinRamp
    ensures rampDistance >= MinRamp ==> r == rampDistance
  {
    Max(MinRamp, rampDistance)
  }

  /** The fraction of the ramp covered: `InverseLerp(0, RampSpan(rampDistance), d)`. */
  function LinearRamp(d: real, rampDistance: real): (r: real)
    ensures 0.0 <= r <= 1.0
  {
    InverseLerp(0.0, RampSpan(rampDistance), d)
  }

  /** The linear ramp is 0 up to the start, 1 from the end of the ramp on, and the plain
      quotient in between. */
  lemma LinearRampEnds(d: real, rampDistance: real)
    ensures d <= 0.0 ==> LinearRamp(d, rampDistance) == 0.0
    ensures d >= RampSpan(rampDistance) ==> LinearRamp(d, rampDistance) == 1.0
    ensures 0.0 <= d <= RampSpan(rampDistance) ==>
              LinearRamp(d, rampDistance) == d / RampSpan(rampDistance)
  {
    InverseLerpEnds(0.0, RampSpan(rampDistance), d);
  }

  lemma LinearRampMonotone(d: real, e: real, rampDistance: real)
    requires d <= e
    ensures LinearRamp(d, rampDistance) <= LinearRamp(e, rampDistance)
  {
    InverseLerpMonotone(0.0, RampSpan(rampDistance), d, e);
  }

  /** The smoothstep curve `t * t * (3 - 2 * t)`. */
  function Smoothstep(t: real): (r: real)
    ensures t == 0.0 ==> r == 0.0
    ensures t == 1.0 ==> r == 1.0
  {
    t * t * (3.0 - 2.0 * t)
  }

  /** Smoothstep maps [0, 1] into [0, 1]. */
  lemma SmoothstepInUnit(t: real)
    requires 0.0 <= t <= 1.0
    ensures 0.0 <= Smoothstep(t) <= 1.0
  {
    MulNonneg(t, t);
    MulNonneg(t * t, 3.0 - 2.0 * t);
    assert 1.0 - Smoothstep(t) == (1.0 - t) * (1.0 - t) * (1.0 + 2.0 * t);
    MulNonneg(1.0 - t, 1.0 - t);
    MulNonneg((1.0 - t) * (1.0 - t), 1.0 + 2.0 * t);
  }

  /** Smoothstep is non-decreasing on [0, 1]. */
  lemma SmoothstepMonotone(s: real, t: real)
    requires 0.0 <= s <= t <= 1.0
    ensures Smoothstep(s) <= Smoothstep(t)
  {
    var f := 3.0 * (t + s) - 2.0 * (t * t + t * s + s * s);
    assert Smoothstep(t) - Smoothstep(s) == (t - s) * f;
    MulNonneg(t, 1.0 - t);
    MulNonneg(s, 1.0 - s);
    MulNonneg(s, 1.0 - t);
    assert t * t <= t && s * s <= s && t * s <= s;
    assert f >= 0.0;
    MulNonneg(t - s, f);
  }

  /** The input-system indicator's ramp: the linear ramp shaped by smoothstep. */
  function SmoothRamp(along: real, rampDistance: real): (r: real)
    ensures 0.0 <= r <= 1.0
  {
    SmoothstepInUnit(LinearRamp(along, rampDistance));
    Smoothstep(LinearRamp(along, rampDistance))
  }

  /** The smoothed ramp lies in [0, 1], is 0 where the ramp starts and 1 from its end on,
      and never decreases as the distance grows. */
  lemma SmoothRampProperties(along: real, other: real, rampDistance: real)
    ensures 0.0 <= SmoothRamp(along, rampDistance) <= 1.0
    ensures along <= 0.0 ==> SmoothRamp(along, rampDistance) == 0.0
    ensures along >= RampSpan(rampDistance) ==> SmoothRamp(along, rampDistance) == 1.0
    ensures along <= other ==> SmoothRamp(along, rampDistance) <= SmoothRamp(other, rampDistance)
  {
    SmoothstepInUnit(LinearRamp(along, rampDistance));
    LinearRampEnds(along, rampDistance);
    if along <= other {
      LinearRampMonotone(along, other, rampDistance);
      SmoothstepMonotone(LinearRamp(along, rampDistance), LinearRamp(other, rampDistance));
    }
  }

  /** The power easing threshold: exponents at or below it leave smoothstep alone. */
  const PowerThreshold: real := 1.001

  /** The controller's easing: smoothstep, then `pow(t, power)` when the exponent is above
      the threshold, then `Clamp01`. `pow` stands for `Mathf.Pow`. */
  function ApplyEasing(t: real, power: real, pow: (real, real) -> real): (r: real)
    ensures 0.0 <= r <= 1.0
  {
    var s := Smoothstep(t);
    var p := if power > PowerThreshold then pow(s, power) else s;
    Clamp01(p)
  }

  /** At or below the exponent threshold the easing is exactly smoothstep on [0, 1], and
      so sends 0 to 0 and 1 to 1, whatever `pow` is. */
  lemma EasingIsSmoothstep(t: real, power: real, pow: (real, real) -> real)
    requires power <= PowerThreshold && 0.0 <= t <= 1.0
    ensures ApplyEasing(t, power, pow) == Smoothstep(t)
    ensures ApplyEasing(0.0, power, pow) == 0.0
    ensures ApplyEasing(1.0, power, pow) == 1.0
  {
    SmoothstepInUnit(t);
  }

  /** When `pow` is non-decreasing in its base on [0, 1] for this exponent, the easing is
      non-decreasing on [0, 1]. */
  lemma EasingMonotone(s: real, t: real, power: real, pow: (real, real) -> real)
    requires 0.0 <= s <= t <= 1.0
    requires forall a, b :: 0.0 <= a <= b <= 1.0 ==> pow(a, power) <= pow(b, power)
    ensures ApplyEasing(s, power, pow) <= ApplyEasing(t, power, pow)
  {
    SmoothstepMonotone(s, t);
    SmoothstepInUnit(s);
    SmoothstepInUnit(t);
    var ps := if power > PowerThreshold then pow(Smoothstep(s), power) else Smoothstep(s);
    var pt := if power > PowerThreshold then pow(Smoothstep(t), power) else Smoothstep(t);
    assert ps <= pt;
    ClampMonotone(ps, pt, 0.0, 1.0);
  }

  /** The controller's linear branch: the linear ramp eased by `ApplyEasing`. */
  function EasedRamp(d: real, rampDistance: real, power: real, pow: (real, real) -> real): (r: real)
    ensures 0.0 <= r <= 1.0
  {
    ApplyEasing(LinearRamp(d, rampDistance), power, pow)
  }

  /** With `pow` non-decreasing in its base on [0, 1], the controller's eased fraction never
      decreases as the distance from the deadzone edge grows. */
  lemma EasedRampMonotone(d: real, e: real, rampDistance: real, power: real, pow: (real, real) -> real)
    requires d <= e
    requires forall a, b :: 0.0 <= a <= b <= 1.0 ==> pow(a, power) <= pow(b, power)
    ensures EasedRamp(d, rampDistance, power, pow) <= EasedRamp(e, rampDistance, power, pow)
  {
    LinearRampMonotone(d, e, rampDistance);
    EasingMonotone(LinearRamp(d, rampDistance), LinearRamp(e, rampDistance), power, pow);
  }

  /** The controller's soft-saturation branch: `1 - exp(-gain * d / RampSpan)`, where `exp`
      stands for `Mathf.Exp`. */
  function SoftSaturate(d: real, gain: real, rampDistance: real, exp: real -> real): (r: real)
    // no distance (or no gain) has covered none of the ramp, as far as `exp(0)` is 1
    ensures gain == 0.0 || d == 0.0 ==> r == 1.0 - exp(0.0)
  {
    1.0 - exp(-gain * d / RampSpan(rampDistance))
  }

  /** For a non-negative gain and distance, and an `exp` that lies in (0, 1] on the
      non-positive reals, soft saturation lies in [0, 1) and never reaches 1. */
  lemma SoftSaturateBelowOne(d: real, gain: real, rampDistance: real, exp: real -> real)
    requires gain >= 0.0 && d >= 0.0
    requires forall x :: x <= 0.0 ==> 0.0 < exp(x) <= 1.0
    ensures 0.0 <= SoftSaturate(d, gain, rampDistance, exp) < 1.0
  {
    var l := RampSpan(rampDistance);
    MulNonneg(gain, d);
    QuotientBounds(gain * d, l);
    assert -gain * d / l == -(gain * d / l);
    assert -gain * d / l <= 0.0;
  }

  /** With `exp` non-decreasing, soft saturation grows with the distance. */
  lemma SoftSaturateMonotone(d: real, e: real, gain: real, rampDistance: real, exp: real -> real)
    requires gain >= 0.0 && d <= e
    requires forall x, y :: x <= y ==> exp(x) <= exp(y)
    ensures SoftSaturate(d, gain, rampDistance, exp) <= SoftSaturate(e, gain, rampDistance, exp)
  {
    var l := RampSpan(rampDistance);
    MulNonneg(gain, e - d);
    QuotientBounds(gain * (e - d), l);
    assert l > 0.0;
    assert gain * (e - d) / l == gain * e / l - gain * d / l;
    assert (-gain) * d == -(gain * d) && (-gain) * e == -(gain * e);
    assert -gain * d / l == -(gain * d / l) && -gain * e / l == -(gain * e / l);
    assert -gain * e / l <= -gain * d / l;
  }

  /** The controller's fraction of the ramp, by the chosen policy. */
  function ControllerRamp(d: real, useSoftSaturate: bool, gain: real, rampDistance: real,
                          power: real, pow: (real, real) -> real, exp: real -> real): (r: real)
    ensures !useSoftSaturate ==> 0.0 <= r <= 1.0
  {
    if useSoftSaturate then SoftSaturate(d, gain, rampDistance, exp)
    else EasedRamp(d, rampDistance, power, pow)
  }

  /** The length the indicator aims for: the minimum inside the deadzone, otherwise the
      point a fraction `t` of the way from the minimum to the maximum. */
  function TargetLength(inside: bool, t: real, minLength: real, maxLength: real): (r: real)
    ensures inside ==> r == minLength
    ensures minLength <= maxLength ==> minLength <= r <= maxLength
    ensures !inside && t <= 0.0 ==> r == minLength
    ensures !inside && t >= 1.0 ==> r == maxLength
  {
    if inside then minLength else Lerp(minLength, maxLength, t)
  }

  /** Outside the deadzone, with `minLength <= maxLength`, the target grows with the fraction. */
  lemma TargetLengthMonotone(s: real, t: real, minLength: real, maxLength: real)
    requires minLength <= maxLength && s <= t
    ensures TargetLength(false, s, minLength, maxLength) <= TargetLength(false, t, minLength, maxLength)
  {
    LerpMonotone(minLength, maxLength, s, t);
  }

  /** Two frames with the script's default settings: lengths 0.6 to 6, ramp 3, deadzone
      0.5 with hysteresis 0.1 and no head offset. A pointer at 0.3 keeps the indicator in the
      deadzone at length 0.6; a pointer at 3.5 takes it out (past 0.55) and the target
      saturates at 6. */
  lemma DefaultSettingsScenario()
    ensures Latch(true, 0.3, 0.5, 0.1)
    ensures TargetLength(Latch(true, 0.3, 0.5, 0.1), SmoothRamp(FromHeadTip(0.3, 0.0), 3.0), 0.6, 6.0) == 0.6
    ensures !Latch(true, 3.5, 0.5, 0.1)
    ensures TargetLength(Latch(true, 3.5, 0.5, 0.1), SmoothRamp(FromHeadTip(3.5, 0.0), 3.0), 0.6, 6.0) == 6.0
  {
    SmoothRampProperties(3.5, 3.5, 3.0);
  }
}
