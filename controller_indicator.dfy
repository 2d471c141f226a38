/** The single-sprite indicator stretched along X (Assets/Scripts/ArrowIndicatorController.cs):
    deadzone latch, a ramp shaped either by power easing or by soft saturation, a smoothed
    length and the X scale that shows it. */
module ControllerVariant {
  import opened UnityMath
  import opened Direction
  import opened Deadzone
  import opened LengthMapping

  /** The smallest X scale, and the smallest starting length. */
  const MinScale: real := 0.0001

  class ArrowIndicatorController {
    // Inspector settings (not changed by the script).
    const minLength: real
    const maxLength: real
    const rampDistance: real
    const smoothTime: real
    const deadzone: real
    const deadzoneHysteresis: real
    const headOffset: real
    const useDirectionalProjection: bool
    const easingPower: real
    const useSoftSaturate: bool
    const softSatGain: real
    /** The X scale the transform had when the indicator woke up. */
    const baseScaleX: real

    // Per-frame state.
    var currentLength: real
    var lengthVel: real
    var insideDeadzone: bool

    // What the frame writes to the engine.
    var facing: Vec2
    var scaleX: real

    /** Once the maximum is at least `MinScale` the length is always within its bounds
        (the starting length is floored at `MinScale`, so a smaller maximum is only met at
        the end of the first frame). */
    ghost predicate Valid()
      reads this
    {
      minLength <= maxLength && MinScale <= maxLength ==> minLength <= currentLength <= maxLength
    }

    /** `Awake`: the length starts at the minimum, floored at `MinScale`, inside the deadzone. */
    constructor (minLength: real, maxLength: real, rampDistance: real, smoothTime: real,
                 deadzone: real, deadzoneHysteresis: real, headOffset: real,
                 useDirectionalProjection: bool, easingPower: real, useSoftSaturate: bool,
                 softSatGain: real, baseScaleX: real)
      ensures this.minLength == minLength && this.maxLength == maxLength
      ensures this.rampDistance == rampDistance && this.smoothTime == smoothTime
      ensures this.deadzone == deadzone && this.deadzoneHysteresis == deadzoneHysteresis
      ensures this.headOffset == headOffset && this.useDirectionalProjection == useDirectionalProjection
      ensures this.easingPower == easingPower && this.useSoftSaturate == useSoftSaturate
      ensures this.softSatGain == softSatGain && this.baseScaleX == baseScaleX
      ensures currentLength == Max(minLength, MinScale) && currentLength >= MinScale
      ensures minLength >= MinScale ==> currentLength == minLength
      ensures lengthVel == 0.0 && insideDeadzone
      ensures facing == Right && scaleX == baseScaleX
      ensures Valid()
    {
      this.minLength := minLength;
      this.maxLength := maxLength;
      this.rampDistance := rampDistance;
      this.smoothTime := smoothTime;
      this.deadzone := deadzone;
      this.deadzoneHysteresis := deadzoneHysteresis;
      this.headOffset := headOffset;
      this.useDirectionalProjection := useDirectionalProjection;
      this.easingPower := easingPower;
      this.useSoftSaturate := useSoftSaturate;
      this.softSatGain := softSatGain;
      this.baseScaleX := baseScaleX;
      currentLength := Max(minLength, MinScale);
      lengthVel := 0.0;
      insideDeadzone := true;
      facing := Right;
      scaleX := baseScaleX;
    }

    /** `LateUpdate` for one frame. `raw` is the player-to-pointer offset, `unit` its
        normalisation and `dWorld` its magnitude, as the engine computes them; `smoothDamp`,
        `pow` and `exp` stand for the engine's `SmoothDamp` (with this frame's elapsed
        time), `Pow` and `Exp`. */
    method Step(raw: Vec2, unit: Vec2, dWorld: real, smoothDamp: (real, real, real, real) -> Damped,
                pow: (real, real) -> real, exp: real -> real)
      modifies this
      ensures Valid()
      ensures facing == FacingFromOffset(raw, unit)
      ensures insideDeadzone == Latch(old(insideDeadzone), dWorld, deadzone, deadzoneHysteresis)
      ensures var along := FromHeadTip(ProjectedAlong(dWorld, Dot(raw, facing), useDirectionalProjection), headOffset);
              var t := ControllerRamp(along, useSoftSaturate, softSatGain, rampDistance, easingPower, pow, exp);
              var target := TargetLength(insideDeadzone, t, minLength, maxLength);
              var damped := smoothDamp(old(currentLength), target, old(lengthVel), smoothTime);
              currentLength == Clamp(damped.value, minLength, maxLength) && lengthVel == damped.velocity
      ensures minLength <= maxLength ==> minLength <= currentLength <= maxLength
      ensures scaleX == Max(MinScale, currentLength) && scaleX >= MinScale
    {
      facing := if SqrMagnitude(raw) > Tiny then unit else Right;

      UpdateLatch(dWorld);

      var along := dWorld;
      if useDirectionalProjection {
        var dot := Dot(raw, facing);
        along := Max(0.0, dot);
      }
      along := Max(0.0, along - headOffset);

      var distFromEdge := Max(0.0, along);
      assert distFromEdge == along;
      var t := RampFraction(distFromEdge, pow, exp);

      var targetLen := if insideDeadzone then minLength else Lerp(minLength, maxLength, t);

      ApproachTarget(targetLen, smoothDamp);

      scaleX := Max(MinScale, currentLength / 1.0);
    }

    /** How far along the ramp the distance is, by the configured policy. */
    method RampFraction(distFromEdge: real, pow: (real, real) -> real, exp: real -> real) returns (t: real)
      ensures t == ControllerRamp(distFromEdge, useSoftSaturate, softSatGain, rampDistance, easingPower, pow, exp)
      ensures !useSoftSaturate ==> 0.0 <= t <= 1.0
    {
      if useSoftSaturate {
        var l := Max(MinRamp, rampDistance);
        t := 1.0 - exp(-softSatGain * distFromEdge / l);
      } else {
        t := InverseLerp(0.0, Max(MinRamp, rampDistance), distFromEdge);
        t := ApplyEasing(t, easingPower, pow);
      }
    }

    /** The deadzone latch with hysteresis. */
    method UpdateLatch(dWorld: real)
      modifies this`insideDeadzone
      ensures insideDeadzone == Latch(old(insideDeadzone), dWorld, deadzone, deadzoneHysteresis)
    {
      var enterR := deadzone + deadzoneHysteresis * 0.5;
      var exitR := Max(0.0, deadzone - deadzoneHysteresis * 0.5);
      if insideDeadzone {
        if dWorld > enterR { insideDeadzone := false; }
      } else {
        if dWorld < exitR { insideDeadzone := true; }
      }
    }

    /** Smoothing towards the target, then clamping to the length bounds. */
    method ApproachTarget(targetLen: real, smoothDamp: (real, real, real, real) -> Damped)
      modifies this`currentLength, this`lengthVel
      ensures var damped := smoothDamp(old(currentLength), targetLen, old(lengthVel), smoothTime);
              currentLength == Clamp(damped.value, minLength, maxLength) && lengthVel == damped.velocity
      ensures minLength <= maxLength ==> minLength <= currentLength <= maxLength
    {
      var damped := smoothDamp(currentLength, targetLen, lengthVel, smoothTime);
      currentLength, lengthVel := damped.value, damped.velocity;
      currentLength := Clamp(currentLength, minLength, maxLength);
    }
  }

  /** The fraction of the ramp the controller uses is in [0, 1] for the eased policy, and
      in [0, 1) for soft saturation with a non-negative gain and an `exp` in (0, 1] on the
      non-positive reals; the distance it is computed from is never negative. */
  lemma ControllerRampBounds(dWorld: real, dot: real, useProjection: bool, headOffset: real,
                             useSoftSaturate: bool, gain: real, rampDistance: real, power: real,
                             pow: (real, real) -> real, exp: real -> real)
    requires useSoftSaturate ==> gain >= 0.0
    requires useSoftSaturate ==> forall x :: x <= 0.0 ==> 0.0 < exp(x) <= 1.0
    ensures var d := FromHeadTip(ProjectedAlong(dWorld, dot, useProjection), headOffset);
            var t := ControllerRamp(d, useSoftSaturate, gain, rampDistance, power, pow, exp);
            d >= 0.0 && 0.0 <= t <= 1.0 && (useSoftSaturate ==> t < 1.0)
  {
    var d := FromHeadTip(ProjectedAlong(dWorld, dot, useProjection), headOffset);
    if useSoftSaturate {
      SoftSaturateBelowOne(d, gain, rampDistance, exp);
    }
  }

  /** The X scale never drops below `MinScale`, and is the length itself once the length
      reaches it. */
  lemma ScaleFollowsLength(currentLength: real)
    ensures Max(MinScale, currentLength / 1.0) >= MinScale
    ensures currentLength >= MinScale ==> Max(MinScale, currentLength / 1.0) == currentLength
  {
  }
}
