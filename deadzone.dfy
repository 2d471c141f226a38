/** The deadzone latch shared by the input-system and controller indicators: a boolean that
    leaves the deadzone only past an outer radius and re-enters only below an inner one. */
module Deadzone {
  import opened UnityMath

  /** The radius the distance must exceed for an indicator inside the deadzone to leave it
      (the source calls it `enterR`). */
  function EnterRadius(deadzone: real, hysteresis: real): (r: real)
    ensures r >= deadzone <==> hysteresis >= 0.0
    // when the inner radius is not floored, the band between the radii is the hysteresis
    ensures deadzone >= hysteresis * 0.5 ==> r - ExitRadius(deadzone, hysteresis) == hysteresis
  {
    deadzone + hysteresis * 0.5
  }

  /** The radius the distance must fall below for an indicator outside the deadzone to
      re-enter it (the source's `exitR`); it is floored at 0. */
  function ExitRadius(deadzone: real, hysteresis: real): (r: real)
    ensures r >= 0.0
    ensures r == 0.0 <==> deadzone <= hysteresis * 0.5
  {
    Max(0.0, deadzone - hysteresis * 0.5)
  }

  /** One frame of the latch: the state after seeing distance `d`. */
  function Latch(inside: bool, d: real, deadzone: real, hysteresis: real): (r: bool)
    // the state flips exactly when the distance crosses the threshold facing the current state
    ensures r != inside <==>
              (inside && d > EnterRadius(deadzone, hysteresis)) ||
              (!inside && d < ExitRadius(deadzone, hysteresis))
  {
    if inside then !(d > EnterRadius(deadzone, hysteresis))
    else d < ExitRadius(deadzone, hysteresis)
  }

  /** The band between the two radii is non-empty exactly when the hysteresis is
      non-negative and the outer radius is not below 0. */
  lemma BandOrdered(deadzone: real, hysteresis: real)
    ensures ExitRadius(deadzone, hysteresis) <= EnterRadius(deadzone, hysteresis) <==>
              hysteresis >= 0.0 && EnterRadius(deadzone, hysteresis) >= 0.0
  {
  }

  /** A distance inside the band leaves the latch where it is, from either state. */
  lemma BandIsStable(inside: bool, d: real, deadzone: real, hysteresis: real)
    requires ExitRadius(deadzone, hysteresis) <= d <= EnterRadius(deadzone, hysteresis)
    ensures Latch(inside, d, deadzone, hysteresis) == inside
  {
  }

  /** When the deadzone is no wider than half the hysteresis the inner radius is 0, so
      no real distance can bring the latch back inside. */
  lemma NoReentryWhenExitRadiusIsZero(d: real, deadzone: real, hysteresis: real)
    requires deadzone <= hysteresis * 0.5 && d >= 0.0
    ensures !Latch(false, d, deadzone, hysteresis)
  {
  }

  /** The latch after a sequence of frames, earliest distance first: no frames leave it as
      it was, and the last frame is one more latch step of the state the others reach. */
  function Run(inside: bool, ds: seq<real>, deadzone: real, hysteresis: real): (r: bool)
    ensures ds == [] ==> r == inside
    ensures ds != [] ==> r == Latch(Run(inside, ds[..|ds| - 1], deadzone, hysteresis), ds[|ds| - 1], deadzone, hysteresis)
    decreases |ds|
  {
    if ds == [] then inside
    else
      assert |ds| > 1 ==> ds[1..][..|ds[1..]| - 1] == ds[..|ds| - 1][1..];
      Run(Latch(inside, ds[0], deadzone, hysteresis), ds[1..], deadzone, hysteresis)
  }

  /** Running two stretches of frames one after the other is running their concatenation. */
  lemma {:induction false} RunAppend(inside: bool, xs: seq<real>, ys: seq<real>, deadzone: real, hysteresis: real)
    ensures Run(inside, xs + ys, deadzone, hysteresis) ==
            Run(Run(inside, xs, deadzone, hysteresis), ys, deadzone, hysteresis)
    decreases |xs|
  {
    if xs != [] {
      assert (xs + ys)[0] == xs[0];
      assert (xs + ys)[1..] == xs[1..] + ys;
      RunAppend(Latch(inside, xs[0], deadzone, hysteresis), xs[1..], ys, deadzone, hysteresis);
    } else {
      assert xs + ys == ys;
    }
  }

  /** Once outside, the latch stays outside for as long as no distance drops below the
      inner radius. */
  lemma {:induction false} StaysOutside(ds: seq<real>, deadzone: real, hysteresis: real)
    requires forall i :: 0 <= i < |ds| ==> ds[i] >= ExitRadius(deadzone, hysteresis)
    ensures !Run(false, ds, deadzone, hysteresis)
    decreases |ds|
  {
    if ds != [] {
      assert !Latch(false, ds[0], deadzone, hysteresis);
      StaysOutside(ds[1..], deadzone, hysteresis);
    }
  }

  /** Once inside, the latch stays inside for as long as no distance exceeds the outer
      radius. */
  lemma {:induction false} StaysInside(ds: seq<real>, deadzone: real, hysteresis: real)
    requires forall i :: 0 <= i < |ds| ==> ds[i] <= EnterRadius(deadzone, hysteresis)
    ensures Run(true, ds, deadzone, hysteresis)
    decreases |ds|
  {
    if ds != [] {
      assert Latch(true, ds[0], deadzone, hysteresis);
      StaysInside(ds[1..], deadzone, hysteresis);
    }
  }

  /** With an ordered band, a frame past the outer radius takes the latch out whatever came
      before, and it then remains out until some distance drops below the inner radius. */
  lemma LeavesAndStaysOut(inside: bool, before: seq<real>, d: real, after: seq<real>,
                          deadzone: real, hysteresis: real)
    requires ExitRadius(deadzone, hysteresis) <= EnterRadius(deadzone, hysteresis)
    requires d > EnterRadius(deadzone, hysteresis)
    requires forall i :: 0 <= i < |after| ==> after[i] >= ExitRadius(deadzone, hysteresis)
    ensures !Run(inside, before + [d] + after, deadzone, hysteresis)
  {
    var mid := Run(inside, before, deadzone, hysteresis);
    RunAppend(inside, before, [d] + after, deadzone, hysteresis);
    assert before + [d] + after == before + ([d] + after);
    assert ([d] + after)[0] == d && ([d] + after)[1..] == after;
    assert !Latch(mid, d, deadzone, hysteresis);
    StaysOutside(after, deadzone, hysteresis);
  }

  /** With a zero inner radius and real (non-negative) distances, an indicator that has left
      the deadzone never returns to it. */
  lemma {:induction false} NeverReenters(ds: seq<real>, deadzone: real, hysteresis: real)
    requires deadzone <= hysteresis * 0.5
    requires forall i :: 0 <= i < |ds| ==> ds[i] >= 0.0
    ensures !Run(false, ds, deadzone, hysteresis)
  {
    StaysOutside(ds, deadzone, hysteresis);
  }
}
