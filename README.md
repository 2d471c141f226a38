# Arrow indicator: a verified model of the per-frame length and layout update

The repository draws an arrow anchored to a player that points at the mouse or pointer.
Its length follows the pointer's distance. Three Unity scripts each do this in their
`LateUpdate`:

- `ArrowIndicator_InputSystem` is a three-piece arrow (tail, body, head). It has a
  deadzone latch with hysteresis, a smoothstep ramp, a smoothed length and a seam
  correction for short bodies (`bodyLen < 1`).
- `ArrowIndicatorController` is a single sprite stretched along X. It has the same latch.
  The ramp is either eased (smoothstep, then an optional power, then `Clamp01`) or
  soft-saturating (`1 - exp(-k·x/L)`). It also has the smoothed length and an X scale
  floored at 0.0001.
- `ArrowIndicatorPieces` is a three-piece arrow without deadzone or smoothing. It clamps
  the distance straight to a length, and its seam rule is `bodyLen <= 1`.

The model works over Dafny `real`. It has:

- Unity's `Mathf` helpers with their clamping behaviour (`UnityMath`);
- the facing direction with its fallback to +X (`Direction`);
- the deadzone latch, plus a multi-frame run of it (`Deadzone`);
- the distance-to-length pipeline (`LengthMapping`);
- one-dimensional packing of the three pieces (`Layout`);
- one class per script. Each class has the script's fields and a `Step` method that
  does the frame's updates in the script's order. Each `Step` is proved equal to the
  pure functions above, applied to the old state and the frame's inputs.

Engine services that the model cannot see are passed in as parameters:

- `Mathf.SmoothDamp` is a function parameter
  `(current, target, velocity, smoothTime) -> Damped(value, velocity)`. Nothing is
  assumed about it. The clamp that follows it is what keeps the length in bounds.
- `Mathf.Pow` is a parameter `(real, real) -> real`, and `Mathf.Exp` is a parameter
  `real -> real`. A lemma may assume a property of them (for example `0 < exp(x) <= 1`
  for `x <= 0`), and when it does, it says so in its `requires`.
- The normalised offset (`raw.normalized`) and the magnitude/distance are real inputs.

Where the scripts' comments or settings suggest one thing and the code does another, the
model follows the code:

- The re-entry radius is floored at 0 (`ExitRadius`), so a deadzone no wider than half
  the hysteresis can never be re-entered (`NeverReenters`).
- Power easing applies only above an exponent of 1.001, and a `Clamp01` follows it.
- The short-body seam correction is the smaller one in magnitude: -2.5e-05 against
  -0.0025. The comment beside the input-system variant's test says the opposite.
- The head's position subtracts the negative seam correction, so the head moves outwards
  and leaves a gap of `|overlap|` after the body (`HeadGapIsOverlap`). The comment beside
  the three-piece script's head placement says it pulls the head back.
- The two three-piece scripts disagree at `bodyLen == 1` exactly
  (`SeamRulesDifferOnlyAtOne`).
- The controller's starting length is `max(minLength, 0.0001)`. If `maxLength` is below
  0.0001, that start lies above `maxLength` until the first frame clamps it. The
  controller's `Valid` therefore holds the bounds only for `maxLength >= 0.0001`, while
  its `Step` puts the length in bounds whenever `minLength <= maxLength`.
- `h >= 0` alone does not make the hysteresis band ordered, because the floor at 0 can
  lift the inner radius above a negative outer one. `BandOrdered` states the exact
  condition.

## Model

`UnityMath.Dist` (the distance between two reals, used to state `ClampIsNearest`) and
`UnityMath.Scale` (a product split out so that `Lerp` verifies) are proof helpers. They
model no source line and have no row.

| member | source | states |
|---|---|---|
| `UnityMath.Max` | Assets/Scripts/ArrowIndicator_InputSystem.cs:116-118 | the result is an upper bound of both arguments and is one of them |
| `UnityMath.Clamp` | Assets/Scripts/ArrowIndicator_InputSystem.cs:129 | for `lo <= hi` the result lies in `[lo, hi]`; a value already in range is returned unchanged; the result is the value or one of the bounds |
| `UnityMath.ClampIsNearest` | Assets/Scripts/ArrowIndicator_InputSystem.cs:129 | clamping picks the point of `[lo, hi]` nearest to the value (independent characterisation) |
| `UnityMath.ClampMonotone` | Assets/Scripts/ArrowIndicatorPieces.cs:69 | clamping is non-decreasing in the value |
| `UnityMath.Clamp01` | Assets/Scripts/ArrowIndicatorController.cs:163 | result in `[0, 1]`, identity on `[0, 1]`, 0 below and 1 above |
| `UnityMath.InverseLerp` | Assets/Scripts/ArrowIndicator_InputSystem.cs:121 | the fraction lies in `[0, 1]`; it is 0 when both ends coincide |
| `UnityMath.InverseLerpEnds` | Assets/Scripts/ArrowIndicator_InputSystem.cs:121 | on a rising interval the fraction is 0 at and below the start, 1 at and above the end, the plain quotient between |
| `UnityMath.InverseLerpMonotone` | Assets/Scripts/ArrowIndicator_InputSystem.cs:121 | on a rising interval the fraction is non-decreasing in the value |
| `UnityMath.Lerp` | Assets/Scripts/ArrowIndicator_InputSystem.cs:125 | for `a <= b` the result lies in `[a, b]` for every `t`; `t <= 0` gives `a`, `t >= 1` gives `b` |
| `UnityMath.LerpMonotone` | Assets/Scripts/ArrowIndicator_InputSystem.cs:125 | for `a <= b` the interpolation is non-decreasing in `t` |
| `UnityMath.SqrMagnitude` | Assets/Scripts/ArrowIndicator_InputSystem.cs:99 | squared length is never negative |
| `UnityMath.Dot` | Assets/Scripts/ArrowIndicator_InputSystem.cs:115 | a vector dotted with itself gives its squared length |
| `Direction.FacingFromOffset` | Assets/Scripts/ArrowIndicator_InputSystem.cs:99 | an offset of squared length at most 1e-6 faces +X; a longer one faces along its normalisation; either way the facing is a unit vector when the normalisation is exact |
| `Direction.FacingFromUnit` | Assets/Scripts/ArrowIndicatorPieces.cs:63-64 | the chosen direction always has squared length at least 1e-6; it is the normalised vector unless that is too short, else +X |
| `Direction.ZeroOffsetFacesRight` | Assets/Scripts/ArrowIndicatorController.cs:97 | a pointer exactly on the player faces +X under both direction rules |
| `Direction.ProjectionOntoOwnDirection` | Assets/Scripts/ArrowIndicator_InputSystem.cs:112-116 | projecting an offset onto its own unit direction gives its length, so the projection agrees with the magnitude for an exact direction |
| `Deadzone.EnterRadius` | Assets/Scripts/ArrowIndicatorController.cs:103 | the leaving radius is at least the deadzone iff `h >= 0`; when the inner radius is not floored the two radii are exactly `h` apart (ordering in `BandOrdered`) |
| `Deadzone.ExitRadius` | Assets/Scripts/ArrowIndicator_InputSystem.cs:107 | the re-entry radius is never negative, and is 0 exactly when `deadzone <= h/2` |
| `Deadzone.Latch` | Assets/Scripts/ArrowIndicator_InputSystem.cs:106-109 | the state flips iff inside and `d > deadzone + h/2`, or outside and `d < max(0, deadzone - h/2)`; otherwise it is unchanged |
| `Deadzone.BandOrdered` | Assets/Scripts/ArrowIndicatorController.cs:103-104 | `exitR <= enterR` iff `h >= 0` and `enterR >= 0` |
| `Deadzone.BandIsStable` | Assets/Scripts/ArrowIndicatorController.cs:103-106 | a distance in `[exitR, enterR]` leaves the latch unchanged from either state |
| `Deadzone.NoReentryWhenExitRadiusIsZero` | Assets/Scripts/ArrowIndicator_InputSystem.cs:107-109 | with `deadzone <= h/2` no non-negative distance brings an outside latch back in |
| `Deadzone.Run` | Assets/Scripts/ArrowIndicator_InputSystem.cs:108-109 | the latch over successive frames: no frames leave the state unchanged, and the state after the last frame is `Latch` of the state the earlier frames reach (compositions in `RunAppend`, `StaysOutside`, `StaysInside`) |
| `Deadzone.RunAppend` | Assets/Scripts/ArrowIndicator_InputSystem.cs:108-109 | running the latch over two stretches of frames equals running it over their concatenation |
| `Deadzone.StaysOutside` | Assets/Scripts/ArrowIndicator_InputSystem.cs:109 | once outside, the latch stays outside while no distance drops below `exitR` |
| `Deadzone.StaysInside` | Assets/Scripts/ArrowIndicator_InputSystem.cs:108 | once inside, the latch stays inside while no distance exceeds `enterR` |
| `Deadzone.LeavesAndStaysOut` | Assets/Scripts/ArrowIndicatorController.cs:105-106 | with an ordered band, a frame past `enterR` takes the latch out from any history, and it stays out until a distance is below `exitR` |
| `Deadzone.NeverReenters` | Assets/Scripts/ArrowIndicator_InputSystem.cs:107-109 | with `deadzone <= h/2` and non-negative distances, an outside latch stays outside for any number of frames |
| `LengthMapping.ProjectedAlong` | Assets/Scripts/ArrowIndicator_InputSystem.cs:112-117 | with projection the distance is non-negative, at least the dot product and equal to it when it is non-negative; without it, it is the magnitude |
| `LengthMapping.FromHeadTip` | Assets/Scripts/ArrowIndicator_InputSystem.cs:118 | the result is non-negative, at least `along - headOffset`, positive iff `along > headOffset`, and no larger than `along` for a non-negative offset |
| `LengthMapping.DistFromEdgeIsAlong` | Assets/Scripts/ArrowIndicatorController.cs:115-119 | the controller's second floor at 0 never changes the distance |
| `LengthMapping.RampSpan` | Assets/Scripts/ArrowIndicator_InputSystem.cs:121 | the ramp length is at least 0.0001 and equals the setting when the setting is at least that |
| `LengthMapping.LinearRamp` | Assets/Scripts/ArrowIndicatorController.cs:131 | the linear ramp fraction lies in `[0, 1]` |
| `LengthMapping.LinearRampEnds` | Assets/Scripts/ArrowIndicatorController.cs:131 | the fraction is 0 at distance 0, 1 once the distance reaches `max(0.0001, rampDistance)`, the quotient between |
| `LengthMapping.LinearRampMonotone` | Assets/Scripts/ArrowIndicatorController.cs:131 | the linear fraction is non-decreasing in the distance |
| `LengthMapping.Smoothstep` | Assets/Scripts/ArrowIndicator_InputSystem.cs:123 | smoothstep fixes 0 and 1 |
| `LengthMapping.SmoothstepInUnit` | Assets/Scripts/ArrowIndicator_InputSystem.cs:123 | smoothstep maps `[0, 1]` into `[0, 1]` |
| `LengthMapping.SmoothstepMonotone` | Assets/Scripts/ArrowIndicator_InputSystem.cs:123 | smoothstep is non-decreasing on `[0, 1]` |
| `LengthMapping.SmoothRamp` | Assets/Scripts/ArrowIndicator_InputSystem.cs:121-123 | the input-system ramp (smoothstep of the linear ramp) lies in `[0, 1]`; ends and monotonicity in `SmoothRampProperties` |
| `LengthMapping.SmoothRampProperties` | Assets/Scripts/ArrowIndicator_InputSystem.cs:121-123 | the input-system ramp lies in `[0, 1]`, is 0 at distance 0, is 1 from `max(0.0001, rampDistance)` on, and is non-decreasing |
| `LengthMapping.ApplyEasing` | Assets/Scripts/ArrowIndicatorController.cs:157-164 | the eased value lies in `[0, 1]` for every `t`, every exponent and every `pow` |
| `LengthMapping.EasingIsSmoothstep` | Assets/Scripts/ArrowIndicatorController.cs:160-163 | for exponents at most 1.001 and `t` in `[0, 1]` the easing equals smoothstep, and sends 0 to 0 and 1 to 1 |
| `LengthMapping.EasingMonotone` | Assets/Scripts/ArrowIndicatorController.cs:157-164 | when `pow` is non-decreasing in its base on `[0, 1]`, the easing is non-decreasing on `[0, 1]` |
| `LengthMapping.EasedRamp` | Assets/Scripts/ArrowIndicatorController.cs:131-132 | the eased ramp lies in `[0, 1]` |
| `LengthMapping.EasedRampMonotone` | Assets/Scripts/ArrowIndicatorController.cs:131-132 | when `pow` is non-decreasing in its base on `[0, 1]`, the eased fraction is non-decreasing in the distance from the deadzone edge |
| `LengthMapping.SoftSaturate` | Assets/Scripts/ArrowIndicatorController.cs:124-126 | `1 - exp(-k·d/L)` with `L` floored at 0.0001; a zero distance or zero gain gives `1 - exp(0)`; range in `SoftSaturateBelowOne`, monotonicity in `SoftSaturateMonotone` |
| `LengthMapping.SoftSaturateBelowOne` | Assets/Scripts/ArrowIndicatorController.cs:124-126 | with gain and distance non-negative and `exp` in `(0, 1]` on the non-positive reals, soft saturation lies in `[0, 1)` and never reaches 1 |
| `LengthMapping.SoftSaturateMonotone` | Assets/Scripts/ArrowIndicatorController.cs:124-126 | with a non-negative gain and a non-decreasing `exp`, soft saturation is non-decreasing in the distance |
| `LengthMapping.ControllerRamp` | Assets/Scripts/ArrowIndicatorController.cs:122-133 | under the eased policy the fraction lies in `[0, 1]` |
| `LengthMapping.TargetLength` | Assets/Scripts/ArrowIndicator_InputSystem.cs:125 | inside the deadzone the target is `minLength`; for `minLength <= maxLength` it lies in `[minLength, maxLength]`; outside, fractions at or past the ends give the ends |
| `LengthMapping.TargetLengthMonotone` | Assets/Scripts/ArrowIndicatorController.cs:135 | outside the deadzone the target grows with the fraction |
| `LengthMapping.DefaultSettingsScenario` | Assets/Scripts/ArrowIndicator_InputSystem.cs:106-125 | with the script's default settings (lines 14-27: lengths 0.6 to 6, ramp 3, deadzone 0.5, hysteresis 0.1, no head offset), a pointer at 0.3 stays inside with target 0.6; one at 3.5 leaves and targets 6 |
| `Layout.BodyLength` | Assets/Scripts/ArrowIndicatorPieces.cs:72 | the body length is never negative; with room for it, tail + body + head is the length; without room it is 0 |
| `Layout.BodyScale` | Assets/Scripts/ArrowIndicatorPieces.cs:77-78 | the scale is at least 0.0001; it is `bodyLen / bodyBaseW` when the base width is positive and that ratio reaches 0.0001, the floor when it does not, and 1 when the base width is not positive |
| `Layout.IsShort` | Assets/Scripts/ArrowIndicatorPieces.cs:91 | a short body is at most one unit long under either rule, and every body below one unit is short under either rule (the rules differ in `SeamRulesDifferOnlyAtOne`) |
| `Layout.SeamOverlap` | Assets/Scripts/ArrowIndicatorPieces.cs:91 | the correction is -2.5e-05 exactly for a short body under the rule, -0.0025 exactly otherwise |
| `Layout.Place` | Assets/Scripts/ArrowIndicatorPieces.cs:72-93 | body length non-negative, body scale at least 0.0001, tail at 0, body's left half-length point at `tailW`, head's near edge at the body's far end less the overlap |
| `Layout.BodyAbutsTail` | Assets/Scripts/ArrowIndicatorPieces.cs:85-89 | for a positive base width and an unfloored scale the drawn body spans exactly `[tailW, tailW + bodyLen]`, meeting the tail at `tailW` |
| `Layout.HeadEndsAtLength` | Assets/Scripts/ArrowIndicatorPieces.cs:93 | when `length >= tailW + headW` the head's far edge is at `length - overlap`, past the length since the overlap is negative |
| `Layout.HeadGapIsOverlap` | Assets/Scripts/ArrowIndicator_InputSystem.cs:145 | the head's near edge lies `-overlap > 0` past the body's far end: subtracting the negative correction opens a gap rather than an overlap |
| `Layout.SeamRulesDifferOnlyAtOne` | Assets/Scripts/ArrowIndicator_InputSystem.cs:140 | the `< 1` rule and the `<= 1` rule choose different corrections iff `bodyLen == 1` |
| `Layout.SeamOverlapMonotone` | Assets/Scripts/ArrowIndicatorPieces.cs:91 | once the body is long enough for the long-body correction, a longer body keeps it |
| `InputSystemVariant.ArrowIndicatorInputSystem.constructor` | Assets/Scripts/ArrowIndicator_InputSystem.cs:49-74 | settings stored, X scales 1, length `minLength`, inside the deadzone, invariant established |
| `InputSystemVariant.ArrowIndicatorInputSystem.Step` | Assets/Scripts/ArrowIndicator_InputSystem.cs:76-145 | new facing, latch, length and velocity (the clamped SmoothDamp output towards `TargetLength` of the smoothed ramp) and piece placement equal the pure model of the frame; length within bounds; tail and head scales untouched |
| `InputSystemVariant.ArrowIndicatorInputSystem.UpdateLatch` | Assets/Scripts/ArrowIndicator_InputSystem.cs:105-109 | the new latch state is `Latch` of the old one |
| `InputSystemVariant.ArrowIndicatorInputSystem.ApproachTarget` | Assets/Scripts/ArrowIndicator_InputSystem.cs:127-129 | length is the SmoothDamp output clamped to the bounds, velocity is SmoothDamp's; the length is in bounds whatever SmoothDamp returns |
| `InputSystemVariant.ArrowIndicatorInputSystem.PlacePieces` | Assets/Scripts/ArrowIndicator_InputSystem.cs:131-145 | body scale, overlap and the three positions are `Place` of the length with the `< 1` rule |
| `InputSystemVariant.ZeroOffsetFrame` | Assets/Scripts/ArrowIndicator_InputSystem.cs:98-125 | a pointer on the player faces +X, keeps an inside latch inside and targets `minLength` |
| `ControllerVariant.ArrowIndicatorController.constructor` | Assets/Scripts/ArrowIndicatorController.cs:66-85 | settings stored, length `max(minLength, 0.0001)` (that is, `minLength` once it is at least 0.0001), inside the deadzone |
| `ControllerVariant.ArrowIndicatorController.Step` | Assets/Scripts/ArrowIndicatorController.cs:87-143 | new facing, latch, length and velocity equal the pure model of the frame (`ControllerRamp`, `TargetLength`, clamp); length within bounds; X scale is `max(0.0001, length)` |
| `ControllerVariant.ArrowIndicatorController.RampFraction` | Assets/Scripts/ArrowIndicatorController.cs:120-133 | the computed fraction is `ControllerRamp` of the distance under the configured policy, in `[0, 1]` for the eased policy |
| `ControllerVariant.ArrowIndicatorController.UpdateLatch` | Assets/Scripts/ArrowIndicatorController.cs:102-106 | the new latch state is `Latch` of the old one |
| `ControllerVariant.ArrowIndicatorController.ApproachTarget` | Assets/Scripts/ArrowIndicatorController.cs:137-139 | length is the SmoothDamp output clamped to the bounds, velocity is SmoothDamp's |
| `ControllerVariant.ControllerRampBounds` | Assets/Scripts/ArrowIndicatorController.cs:108-133 | the distance from the edge is never negative whichever projection setting; the fraction is in `[0, 1]`, and below 1 for soft saturation under the `exp` bounds |
| `ControllerVariant.ScaleFollowsLength` | Assets/Scripts/ArrowIndicatorController.cs:142 | the X scale is at least 0.0001 and equals the length once the length reaches 0.0001 |
| `PiecesVariant.ArrowIndicatorPieces.constructor` | Assets/Scripts/ArrowIndicatorPieces.cs:31-51 | settings stored, X scales 1, length `minLength`, invariant established |
| `PiecesVariant.ArrowIndicatorPieces.Step` | Assets/Scripts/ArrowIndicatorPieces.cs:53-94 | facing is the fallback-checked direction (never degenerate), length is the distance clamped to the bounds, pieces are `Place` of it with the `<= 1` rule |

## Left out

- Unity lifecycle and scene wiring are engine glue and are left out: `Awake`/`LateUpdate`
  dispatch, the early return when the player or camera is missing, `Camera.main`,
  `ScreenToWorldPoint`, following the player's position, and writing `transform.right`.
  Reading `transform.right` back gives the direction just assigned; the model uses that
  direction directly.
- Choosing between `Pointer.current`, `Mouse.current` and the screen centre is left out.
  These are foreign Input System calls, so the pointer reaches the model as the offset.
- `Mathf.SmoothDamp` is left out because its source is not part of this model. It is an
  unconstrained function parameter, and `smoothTime` and the frame time only pass
  through to it.
- `Mathf.Exp` and `Mathf.Pow` are transcendental and are left out. Their properties
  appear only as lemma hypotheses.
- `LengthMapping.SoftSaturateBelowOne`: the limit `t -> 1` as the distance grows is not
  stated, because that needs `exp`'s limit at minus infinity.
- Vector normalisation and `magnitude`/`Vector2.Distance` need a square root, so they
  are inputs of `Step`. Only the squared-length fallback tests are modelled.
- IEEE single-precision rounding is left out. All constants (1e-6, 0.0001, 1.001,
  -0.0025, -2.5e-05) are exact reals.
- Presentation is left out, including material and shader properties (`_StretchX`, tint,
  gradient), colours, the sorting order and the Y-scale thickness.
- The controller's `stretchX = scaleX / baseScaleX` is left out, because `baseScaleX`
  comes from the engine transform and may be 0.
- The piece widths come from sprite metadata (`rect.width / pixelsPerUnit`). They are
  constructor parameters.
- The piece positions and facing before the first frame are scene values the scripts
  never set. The constructors put them at 0 and +X.
- `lengthVel` and `overlap` start at C#'s default 0.
