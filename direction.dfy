/** Which way the indicator points: the normalised player-to-pointer offset, or
    `Vector2.right` when that offset is too short to give a direction. The normalisation
    itself (a square root) is the engine's; it reaches the model as the vector `unit`. */
module Direction {
  import opened UnityMath

  /** Squared-length threshold below which an offset gives no direction. */
  const Tiny: real := 0.000001

  /** The input-system and controller rule: the raw offset is tested, and a raw offset of
      squared length at most `Tiny` points the indicator along +X. When `unit` is the exact
      normalisation of a long enough offset, the facing is always a unit vector. */
  function FacingFromOffset(raw: Vec2, unit: Vec2): (r: Vec2)
    ensures SqrMagnitude(raw) <= Tiny ==> r == Right
    ensures SqrMagnitude(raw) > Tiny ==> r == unit
    ensures (SqrMagnitude(raw) > Tiny ==> SqrMagnitude(unit) == 1.0) ==> SqrMagnitude(r) == 1.0
  {
    if SqrMagnitude(raw) > Tiny then unit else Right
  }

  /** The three-piece rule: the normalised vector itself is tested, with a strict bound;
      the direction it yields is never degenerate. */
  function FacingFromUnit(unit: Vec2): (r: Vec2)
    ensures SqrMagnitude(r) >= Tiny
    ensures r == unit || r == Right
    ensures SqrMagnitude(unit) >= Tiny ==> r == unit
  {
    if SqrMagnitude(unit) < Tiny then Right else unit
  }

  /** A pointer exactly on the player points the indicator along +X under both rules
      (the normalisation of a zero vector is the zero vector). */
  lemma ZeroOffsetFacesRight()
    ensures FacingFromOffset(Vec2(0.0, 0.0), Vec2(0.0, 0.0)) == Right
    ensures FacingFromUnit(Vec2(0.0, 0.0)) == Right
  {
  }

  /** Projecting an offset onto its own exact direction gives back its length: when `unit`
      has length 1 and the offset is `len` times it, the directional projection measures
      the same distance as the magnitude. */
  lemma ProjectionOntoOwnDirection(unit: Vec2, len: real)
    requires SqrMagnitude(unit) == 1.0
    ensures Dot(Vec2(len * unit.x, len * unit.y), unit) == len
  {
  }
}
