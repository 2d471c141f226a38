/** The three-piece indicator driven by the Input System pointer
    (Assets/Scripts/ArrowIndicator_InputSystem.cs): deadzone latch, smoothed length and
    the tail/body/head layout with the `bodyLen < 1` seam rule. */
module InputSystemVariant {
  import opened UnityMath
  import opened Direction
  import opened Deadzone
  import opened LengthMapping
  import opened Layout

  class ArrowIndicatorInputSystem {
    // Inspector settings (not changed by the script).
    const minLength: real
    const maxLength: real
    const rampDistance: real
    const deadzone: real
    const deadzoneHysteresis: real
    const smoothTime: real
    const headOffset: real
    const useDirectionalProjection: bool
    // Piece widths in world units, derived once from the sprites.
    const tailW: real
    const bodyBaseW: real
    const headW: real

    // Per-frame state.
    var currentLength: real
    var lengthVel: real
    var insideDeadzone: bool
    var overlap: real

    // What the frame writes to the engine: the facing direction, the X scales and the
    // local X positions of the pieces.
    var facing: Vec2
    var tailScaleX: real
    var bodyScaleX: real
    var headScaleX: real
    var tailX: real
    var bodyX: real
    var headX: real

    /** The length stays within its bounds and the body is never squashed to nothing. */
    ghost predicate Valid()
      reads this
    {
      (minLength <= maxLength ==> minLength <= currentLength <= maxLength) &&
      bodyScaleX >= MinBodyScale
    }

    /** `Awake`: neutral X scales, length at the minimum, starting inside the deadzone. */
    constructor (minLength: real, maxLength: real, rampDistance: real, deadzone: real,
                 deadzoneHysteresis: real, smoothTime: real, headOffset: real,
                 useDirectionalProjection: bool, tailW: real, bodyBaseW: real, headW: real)
      ensures this.minLength == minLength && this.maxLength == maxLength
      ensures this.rampDistance == rampDistance && this.deadzone == deadzone
      ensures this.deadzoneHysteresis == deadzoneHysteresis && this.smoothTime == smoothTime
      ensures this.headOffset == headOffset && this.useDirectionalProjection == useDirectionalProjection
      ensures this.tailW == tailW && this.bodyBaseW == bodyBaseW && this.headW == headW
      ensures currentLength == minLength && lengthVel == 0.0 && insideDeadzone && overlap == 0.0
      ensures tailScaleX == 1.0 && bodyScaleX == 1.0 && headScaleX == 1.0
      ensures facing == Right && tailX == 0.0 && bodyX == 0.0 && headX == 0.0
      ensures Valid()
    {
      this.minLength := minLength;
      this.maxLength := maxLength;
      this.rampDistance := rampDistance;
      this.deadzone := deadzone;
      this.deadzoneHysteresis := deadzoneHysteresis;
      this.smoothTime := smoothTime;
      this.headOffset := headOffset;
      this.useDirectionalProjection := useDirectionalProjection;
      this.tailW := tailW;
      this.bodyBaseW := bodyBaseW;
      this.headW := headW;
      tailScaleX, bodyScaleX, headScaleX := 1.0, 1.0, 1.0;
      currentLength := minLength;
      lengthVel := 0.0;
      insideDeadzone := true;
      overlap := 0.0;
      facing := Right;
      tailX, bodyX, headX := 0.0, 0.0, 0.0;
    }

    /** `LateUpdate` for one frame. `raw` is the player-to-pointer offset, `unit` its
        normalisation and `dWorld` its magnitude, all as the engine computes them;
        `smoothDamp` is the engine's `SmoothDamp` for this frame's elapsed time. */
    method Step(raw: Vec2, unit: Vec2, dWorld: real, smoothDamp: (real, real, real, real) -> Damped)
      modifies this
      ensures Valid()
      ensures facing == FacingFromOffset(raw, unit)
      ensures insideDeadzone == Latch(old(insideDeadzone), dWorld, deadzone, deadzoneHysteresis)
      ensures var along := FromHeadTip(ProjectedAlong(dWorld, Dot(raw, facing), useDirectionalProjection), headOffset);
              var target := TargetLength(insideDeadzone, SmoothRamp(along, rampDistance), minLength, maxLength);
              var damped := smoothDamp(old(currentLength), target, old(lengthVel), smoothTime);
              currentLength == Clamp(damped.value, minLength, maxLength) && lengthVel == damped.velocity
      ensures var p := Place(currentLength, tailW, bodyBaseW, headW, BelowOne);
              bodyScaleX == p.bodyScaleX && overlap == p.overlap &&
              tailX == p.tailX && bodyX == p.bodyX && headX == p.headX
      ensures tailScaleX == old(tailScaleX) && headScaleX == old(headScaleX)
    {
      overlap := MaxOverlap;

      facing := if SqrMagnitude(raw) > Tiny then unit else Right;

      UpdateLatch(dWorld);

      var along := dWorld;
      if useDirectionalProjection {
        var dot := Dot(raw, facing);
        along := Max(0.0, dot);
      }
      along := Max(0.0, along - headOffset);

      var t := InverseLerp(0.0, Max(MinRamp, rampDistance), along);
      t := t * t * (3.0 - 2.0 * t);

      var targetLength := if insideDeadzone then minLength else Lerp(minLength, maxLength, t);
      assert targetLength == TargetLength(insideDeadzone, SmoothRamp(along, rampDistance), minLength, maxLength);

      ApproachTarget(targetLength, smoothDamp);
      PlacePieces();
    }

    /** The deadzone latch with hysteresis. */
    method UpdateLatch(dWorld: real)
      modifies this`insideDeadzone
      ensures insideDeadzone == Latch(old(insideDeadzone), dWorld, deadzone, deadzoneHysteresis)
    {
      var enterR := deadzone + deadzoneHysteresis * 0.5;
      var exitR := Max(0.0, deadzone - deadzoneHysteresis * 0.5);
      if insideDeadzone {
        if dWorld > enterR { insideDeadzone := false; }
      } else {
        if dWorld < exitR { insideDeadzone := true; }
      }
    }

    /** Smoothing towards the target, then clamping to the length bounds. */
    method ApproachTarget(targetLength: real, smoothDamp: (real, real, real, real) -> Damped)
      modifies this`currentLength, this`lengthVel
      ensures var damped := smoothDamp(old(currentLength), targetLength, old(lengthVel), smoothTime);
              currentLength == Clamp(damped.value, minLength, maxLength) && lengthVel == damped.velocity
      ensures minLength <= maxLength ==> minLength <= currentLength <= maxLength
    {
      var damped := smoothDamp(currentLength, targetLength, lengthVel, smoothTime);
      currentLength, lengthVel := damped.value, damped.velocity;
      currentLength := Clamp(currentLength, minLength, maxLength);
    }

    /** Body scale, seam correction and the positions of the three pieces. */
    method PlacePieces()
      requires overlap == MaxOverlap
      modifies this`bodyScaleX, this`overlap, this`tailX, this`bodyX, this`headX
      ensures var p := Place(currentLength, tailW, bodyBaseW, headW, BelowOne);
              bodyScaleX == p.bodyScaleX && overlap == p.overlap &&
              tailX == p.tailX && bodyX == p.bodyX && headX == p.headX
    {
      var bodyLen := Max(0.0, currentLength - (tailW + headW));

      var scale := if bodyBaseW > 0.0 then bodyLen / bodyBaseW else 1.0;
      bodyScaleX := Max(MinBodyScale, scale);

      if bodyLen < 1.0 { overlap := MinOverlap; }

      tailX := 0.0;
      bodyX := tailW + bodyLen * 0.5;
      headX := tailW + bodyLen + headW * 0.5 - overlap;
    }
  }

  /** A pointer exactly on the player: the indicator faces +X, a latch inside a deadzone of
      non-negative outer radius stays inside, and the target is the minimum length. */
  lemma ZeroOffsetFrame(deadzone: real, hysteresis: real, minLength: real, maxLength: real,
                        rampDistance: real, headOffset: real, useProjection: bool)
    requires EnterRadius(deadzone, hysteresis) >= 0.0
    ensures FacingFromOffset(Vec2(0.0, 0.0), Vec2(0.0, 0.0)) == Right
    ensures Latch(true, 0.0, deadzone, hysteresis)
    ensures var along := FromHeadTip(ProjectedAlong(0.0, Dot(Vec2(0.0, 0.0), Right), useProjection), headOffset);
            TargetLength(Latch(true, 0.0, deadzone, hysteresis), SmoothRamp(along, rampDistance),
                         minLength, maxLength) == minLength
  {
  }
}
