/** The three-piece layout: a tail pivoted at its left edge, a body pivoted at its centre
    and stretched along X, and a head pivoted at its centre, laid out along the indicator's
    local X axis so that together they span the indicator's length. */
module Layout {
  import opened UnityMath

  /** The seam correction used when the body is long. */
  const MaxOverlap: real := -0.0025
  /** The seam correction used when the body is short. */
  const MinOverlap: real := -0.000025
  /** The smallest X scale the body is given. */
  const MinBodyScale: real := 0.0001

  /** Which comparison decides that the body is short: the input-system indicator uses
      `bodyLen < 1`, the three-piece indicator `bodyLen <= 1`. */
  datatype SeamRule = BelowOne | AtMostOne

  /** The local placement of the three pieces for one frame. */
  datatype Placement = Placement(bodyLen: real, bodyScaleX: real, tailX: real, bodyX: real,
                                 headX: real, overlap: real)

  /** The length left for the body once tail and head are placed, never negative. */
  function BodyLength(length: real, tailW: real, headW: real): (r: real)
    ensures r >= 0.0
    ensures length >= tailW + headW ==> tailW + r + headW == length
    ensures length <= tailW + headW ==> r == 0.0
  {
    Max(0.0, length - (tailW + headW))
  }

  /** The body's X scale: the stretch that gives a sprite of base width `bodyBaseW` the
      length `bodyLen`, 1 when the base width is not positive, and never below
      `MinBodyScale`. */
  function BodyScale(bodyLen: real, bodyBaseW: real): (r: real)
    ensures r >= MinBodyScale
    ensures bodyBaseW > 0.0 && bodyLen / bodyBaseW >= MinBodyScale ==> r == bodyLen / bodyBaseW
    ensures bodyBaseW > 0.0 && bodyLen / bodyBaseW < MinBodyScale ==> r == MinBodyScale
    ensures bodyBaseW <= 0.0 ==> r == 1.0
  {
    Max(MinBodyScale, if bodyBaseW > 0.0 then bodyLen / bodyBaseW else 1.0)
  }

  /** Whether the body counts as short under the rule. */
  predicate IsShort(bodyLen: real, rule: SeamRule): (r: bool)
    ensures r ==> bodyLen <= 1.0
    ensures bodyLen < 1.0 ==> r
  {
    match rule
    case BelowOne => bodyLen < 1.0
    case AtMostOne => bodyLen <= 1.0
  }

  /** The seam correction for the frame: `MinOverlap` for a short body, `MaxOverlap`
      otherwise. */
  function SeamOverlap(bodyLen: real, rule: SeamRule): (r: real)
    ensures r == MinOverlap <==> IsShort(bodyLen, rule)
    ensures r == MaxOverlap <==> !IsShort(bodyLen, rule)
  {
    if IsShort(bodyLen, rule) then MinOverlap else MaxOverlap
  }

  /** The placement of the pieces for an indicator of length `length`. */
  function Place(length: real, tailW: real, bodyBaseW: real, headW: real, rule: SeamRule): (p: Placement)
    ensures p.bodyLen >= 0.0 && p.bodyScaleX >= MinBodyScale
    ensures p.tailX == 0.0
    ensures p.bodyX - p.bodyLen / 2.0 == tailW
    ensures p.headX - headW / 2.0 == p.bodyX + p.bodyLen / 2.0 - p.overlap
    ensures p.overlap == MinOverlap || p.overlap == MaxOverlap
  {
    var bodyLen := BodyLength(length, tailW, headW);
    var overlap := SeamOverlap(bodyLen, rule);
    Placement(bodyLen, BodyScale(bodyLen, bodyBaseW), 0.0, tailW + bodyLen * 0.5,
              tailW + bodyLen + headW * 0.5 - overlap, overlap)
  }

  /** The body, drawn `bodyBaseW * bodyScaleX` wide around its centre, covers exactly
      [tailW, tailW + bodyLen] whenever its scale is not floored: its left edge meets the
      right edge of the tail, which runs from 0 to `tailW`. */
  lemma BodyAbutsTail(length: real, tailW: real, bodyBaseW: real, headW: real, rule: SeamRule)
    requires bodyBaseW > 0.0
    requires BodyLength(length, tailW, headW) / bodyBaseW >= MinBodyScale
    ensures var p := Place(length, tailW, bodyBaseW, headW, rule);
            var half := bodyBaseW * p.bodyScaleX / 2.0;
            p.bodyX - half == p.tailX + tailW && p.bodyX + half == tailW + p.bodyLen
  {
  }

  /** When the length leaves room for the body, the head's far edge lies at the length
      less the seam correction; since the correction is negative, that is past the
      indicator's length by the correction's magnitude. */
  lemma HeadEndsAtLength(length: real, tailW: real, bodyBaseW: real, headW: real, rule: SeamRule)
    requires length >= tailW + headW
    ensures var p := Place(length, tailW, bodyBaseW, headW, rule);
            p.headX + headW / 2.0 == length - p.overlap
  {
  }

  /** Subtracting the (negative) seam correction moves the head outwards: the head's near
      edge lies past the body's far end, leaving a gap as wide as the correction. */
  lemma HeadGapIsOverlap(length: real, tailW: real, bodyBaseW: real, headW: real, rule: SeamRule)
    ensures var p := Place(length, tailW, bodyBaseW, headW, rule);
            (p.headX - headW / 2.0) - (tailW + p.bodyLen) == -p.overlap && -p.overlap > 0.0
  {
  }

  /** The two rules disagree only when the body is exactly one unit long. */
  lemma SeamRulesDifferOnlyAtOne(bodyLen: real)
    ensures SeamOverlap(bodyLen, BelowOne) != SeamOverlap(bodyLen, AtMostOne) <==> bodyLen == 1.0
  {
  }

  /** A body that grows never switches from the long-body correction back to the short-body
      one. */
  lemma SeamOverlapMonotone(b: real, c: real, rule: SeamRule)
    requires b <= c
    ensures SeamOverlap(b, rule) == MaxOverlap ==> SeamOverlap(c, rule) == MaxOverlap
  {
  }
}
