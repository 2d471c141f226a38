/** The three-piece indicator without deadzone or smoothing
    (Assets/Scripts/ArrowIndicatorPieces.cs): the distance is clamped straight to a length
    and the tail, body and head are laid out with the `bodyLen <= 1` seam rule. */
module PiecesVariant {
  import opened UnityMath
  import opened Direction
  import opened Layout

  class ArrowIndicatorPieces {
    // Inspector settings (not changed by the script).
    const minLength: real
    const maxLength: real
    // Piece widths in world units, derived once from the sprites.
    const tailW: real
    const headW: real
    const bodyBaseW: real

    // Per-frame state.
    var currentLength: real
    var overlap: real

    // What the frame writes to the engine.
    var facing: Vec2
    var tailScaleX: real
    var bodyScaleX: real
    var headScaleX: real
    var tailX: real
    var bodyX: real
    var headX: real

    /** The length stays within its bounds, the body is never squashed to nothing and the
        direction is never degenerate. */
    ghost predicate Valid()
      reads this
    {
      (minLength <= maxLength ==> minLength <= currentLength <= maxLength) &&
      bodyScaleX >= MinBodyScale &&
      SqrMagnitude(facing) >= Tiny
    }

    /** `Awake`: neutral X scales and the length at the minimum. */
    constructor (minLength: real, maxLength: real, tailW: real, headW: real, bodyBaseW: real)
      ensures this.minLength == minLength && this.maxLength == maxLength
      ensures this.tailW == tailW && this.headW == headW && this.bodyBaseW == bodyBaseW
      ensures currentLength == minLength && overlap == 0.0
      ensures tailScaleX == 1.0 && bodyScaleX == 1.0 && headScaleX == 1.0
      ensures facing == Right && tailX == 0.0 && bodyX == 0.0 && headX == 0.0
      ensures Valid()
    {
      this.minLength := minLength;
      this.maxLength := maxLength;
      this.tailW := tailW;
      this.headW := headW;
      this.bodyBaseW := bodyBaseW;
      bodyScaleX, tailScaleX, headScaleX := 1.0, 1.0, 1.0;
      currentLength := minLength;
      overlap := 0.0;
      facing := Right;
      tailX, bodyX, headX := 0.0, 0.0, 0.0;
    }

    /** `LateUpdate` for one frame. `unit` is the normalised player-to-pointer offset and
        `dist` the player-to-pointer distance, as the engine computes them. */
    method Step(unit: Vec2, dist: real)
      modifies this
      ensures Valid()
      ensures facing == FacingFromUnit(unit)
      ensures currentLength == Clamp(dist, minLength, maxLength)
      ensures var p := Place(currentLength, tailW, bodyBaseW, headW, AtMostOne);
              bodyScaleX == p.bodyScaleX && overlap == p.overlap &&
              tailX == p.tailX && bodyX == p.bodyX && headX == p.headX
      ensures tailScaleX == old(tailScaleX) && headScaleX == old(headScaleX)
    {
      overlap := MaxOverlap;

      var dir := unit;
      if SqrMagnitude(dir) < Tiny { dir := Right; }
      facing := dir;

      currentLength := Clamp(dist, minLength, maxLength);

      var bodyLen := Max(0.0, currentLength - (tailW + headW));

      var scale := if bodyBaseW > 0.0 then bodyLen / bodyBaseW else 1.0;
      bodyScaleX := Max(MinBodyScale, scale);

      tailX := 0.0;
      bodyX := tailW + bodyLen * 0.5;

      if bodyLen <= 1.0 { overlap := MinOverlap; }
      headX := tailW + bodyLen + headW * 0.5 - overlap;
    }
  }
}
