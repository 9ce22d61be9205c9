/**
  The timed crossfade (TransitionScene): it wraps an outgoing and an incoming
  scene, fades a black overlay in over the outgoing one, swaps at the midpoint
  and fades the overlay out over the incoming one.

  `Fade` is the value of the four mutable fields and `Step` is what one
  `update(dt)` does to them; the class `Transition` updates its fields in place
  and is proved to follow `Step`. Time is a Dafny `real` (the source's floats
  without rounding) and Python's `int(...)` is truncation toward zero.
*/
module Transitions {
  import opened Numeric
  import opened Scenes

  /** The shortest half-duration a transition may have, in seconds. */
  const MinHalf: real := 0.05

  /** `max(0.05, duration)`: the length in seconds of each half of the crossfade. */
  function HalfDuration(duration: real): (h: real)
    ensures h >= MinHalf && h >= duration
    ensures h == MinHalf || h == duration
  {
    if MinHalf >= duration then MinHalf else duration
  }

  /** How far through the current half the elapsed time `t` is, capped at 1. */
  function Progress(t: real, half: real): (p: real)
    requires half > 0.0
    ensures p >= 1.0 <==> t >= half
    ensures p <= 1.0
    ensures t >= 0.0 ==> 0.0 <= p
  {
    MinReal(1.0, t / half)
  }

  /** Overlay opacity while fading out the outgoing scene. */
  function FadeOutAlpha(t: real, half: real): (a: int)
    requires half > 0.0
    ensures t >= 0.0 ==> 0 <= a <= 255
    ensures t == 0.0 ==> a == 0
    ensures t >= half ==> a == 255
  {
    Trunc(255.0 * Progress(t, half))
  }

  /** Overlay opacity while fading in the incoming scene. */
  function FadeInAlpha(t: real, half: real): (a: int)
    requires half > 0.0
    ensures t >= 0.0 ==> 0 <= a <= 255
    ensures t == 0.0 ==> a == 255
    ensures t >= half ==> a == 0
  {
    Trunc(255.0 * (1.0 - Progress(t, half)))
  }

  /** The mutable state of a transition: elapsed time in the current half, overlay opacity and the two flags. */
  datatype Fade = Fade(t: real, alpha: int, swapped: bool, done: bool)

  /** The state a new transition starts in. */
  const Start: Fade := Fade(0.0, 0, false, false)

  /** One `update(dt)`: advance the time, recompute the opacity, swap at the midpoint, finish at the end. */
  function Step(f: Fade, half: real, dt: real): (r: Fade)
    requires half > 0.0
    ensures f.swapped ==> r.swapped
    ensures f.done ==> r.done
    ensures r.done ==> f.done || f.swapped
    ensures !f.swapped ==> r.done == f.done
    ensures r.swapped && !f.swapped ==> r.t == 0.0 && r.alpha == 255
    ensures r.done && !f.done ==> r.alpha == 0
  {
    var t1 := f.t + dt;
    var p := Progress(t1, half);
    if !f.swapped then
      if p >= 1.0 then Fade(0.0, Trunc(255.0 * p), true, f.done)
      else Fade(t1, Trunc(255.0 * p), false, f.done)
    else
      if p >= 1.0 then Fade(t1, 0, true, true)
      else Fade(t1, Trunc(255.0 * (1.0 - p)), true, f.done)
  }

  /** The invariant every reachable state satisfies (time never runs backwards). */
  ghost predicate Inv(f: Fade, half: real)
  {
    && half > 0.0
    && 0.0 <= f.t
    && 0 <= f.alpha <= 255
    && (f.done ==> f.swapped && f.alpha == 0 && f.t >= half)
    && (!f.done ==> f.t < half)
    && (!f.done && !f.swapped ==> f.alpha == FadeOutAlpha(f.t, half))
    && (!f.done && f.swapped ==> f.alpha == FadeInAlpha(f.t, half))
  }

  lemma StartInv(half: real)
    requires half > 0.0
    ensures Inv(Start, half)
  {
  }

  lemma StepKeepsInv(f: Fade, half: real, dt: real)
    requires Inv(f, half) && dt >= 0.0
    ensures Inv(Step(f, half, dt), half)
  {
  }

  lemma FadeOutAlphaMonotone(t1: real, t2: real, half: real)
    requires half > 0.0 && 0.0 <= t1 <= t2
    ensures FadeOutAlpha(t1, half) <= FadeOutAlpha(t2, half)
  {
    DivMonotone(t1, t2, half);
  }

  lemma FadeInAlphaAntitone(t1: real, t2: real, half: real)
    requires half > 0.0 && 0.0 <= t1 <= t2
    ensures FadeInAlpha(t1, half) >= FadeInAlpha(t2, half)
  {
    DivMonotone(t1, t2, half);
  }

  lemma DivMonotone(t1: real, t2: real, half: real)
    requires half > 0.0 && t1 <= t2
    ensures t1 / half <= t2 / half
  {
    assert t2 / half - t1 / half == (t2 - t1) / half;
  }

  /** While fading out the opacity never decreases. */
  lemma FadeOutRises(f: Fade, half: real, dt: real)
    requires Inv(f, half) && !f.swapped && dt >= 0.0
    ensures Step(f, half, dt).alpha >= f.alpha
  {
    var r := Step(f, half, dt);
    if !r.swapped {
      FadeOutAlphaMonotone(f.t, f.t + dt, half);
    }
  }

  /** While fading in (before the end) the opacity never increases. */
  lemma FadeInFalls(f: Fade, half: real, dt: real)
    requires Inv(f, half) && f.swapped && dt >= 0.0
    ensures Step(f, half, dt).alpha <= f.alpha
  {
    var r := Step(f, half, dt);
    if !r.done {
      FadeInAlphaAntitone(f.t, f.t + dt, half);
    }
  }

  /** Total of a sequence of frame times. */
  function Sum(dts: seq<real>): (total: real)
  {
    if dts == [] then 0.0 else Sum(dts[..|dts| - 1]) + dts[|dts| - 1]
  }

  ghost predicate NonNegative(dts: seq<real>)
  {
    forall i :: 0 <= i < |dts| ==> dts[i] >= 0.0
  }

  /** The state after one `update` per frame time in `dts`. */
  function Run(f: Fade, half: real, dts: seq<real>): (r: Fade)
    requires half > 0.0
  {
    if dts == [] then f else Step(Run(f, half, dts[..|dts| - 1]), half, dts[|dts| - 1])
  }

  /** Frames whose total stays below the half-duration leave the phase unchanged and accumulate their time. */
  lemma {:induction false} PhaseBelowThreshold(f: Fade, half: real, dts: seq<real>)
    requires Inv(f, half) && !f.done && NonNegative(dts)
    requires f.t + Sum(dts) < half
    ensures Inv(Run(f, half, dts), half)
    ensures Run(f, half, dts).swapped == f.swapped
    ensures !Run(f, half, dts).done
    ensures Run(f, half, dts).t == f.t + Sum(dts)
  {
    if dts != [] {
      var init := dts[..|dts| - 1];
      assert NonNegative(init) by {
        forall i | 0 <= i < |init| ensures init[i] >= 0.0 { assert init[i] == dts[i]; }
      }
      PhaseBelowThreshold(f, half, init);
      StepKeepsInv(Run(f, half, init), half, dts[|dts| - 1]);
    }
  }

  /**
    A phase ends on the first frame whose accumulated time reaches the
    half-duration: the swap if the phase was the fade-out, `done` if it was
    the fade-in.
  */
  lemma PhaseEnds(f: Fade, half: real, dts: seq<real>)
    requires Inv(f, half) && !f.done && NonNegative(dts) && |dts| > 0
    requires f.t + Sum(dts[..|dts| - 1]) < half
    ensures !f.swapped ==> (Run(f, half, dts).swapped <==> f.t + Sum(dts) >= half)
    ensures f.swapped ==> (Run(f, half, dts).done <==> f.t + Sum(dts) >= half)
    ensures Inv(Run(f, half, dts), half)
  {
    var init := dts[..|dts| - 1];
    assert NonNegative(init) by {
      forall i | 0 <= i < |init| ensures init[i] >= 0.0 { assert init[i] == dts[i]; }
    }
    PhaseBelowThreshold(f, half, init);
    StepKeepsInv(Run(f, half, init), half, dts[|dts| - 1]);
  }

  /** From a new transition, the swap happens on the first frame where the total elapsed time reaches `half`. */
  lemma SwapAtMidpoint(half: real, dts: seq<real>)
    requires half > 0.0 && NonNegative(dts) && |dts| > 0
    requires Sum(dts[..|dts| - 1]) < half
    ensures Run(Start, half, dts).swapped <==> Sum(dts) >= half
    ensures Run(Start, half, dts).swapped ==> Run(Start, half, dts) == Fade(0.0, 255, true, false)
  {
    PhaseEnds(Start, half, dts);
  }

  /**
    After the swap, `done` is set on the first frame where the time elapsed
    since the swap reaches `half`; the overshoot of the swap frame is dropped
    because the swap resets the clock.
  */
  lemma DoneAfterSecondHalf(half: real, before: seq<real>, after: seq<real>)
    requires half > 0.0 && NonNegative(before) && NonNegative(after)
    requires |before| > 0 && Sum(before[..|before| - 1]) < half <= Sum(before)
    requires |after| > 0 && Sum(after[..|after| - 1]) < half
    ensures Run(Run(Start, half, before), half, after).done <==> Sum(after) >= half
    ensures Run(Run(Start, half, before), half, after).done ==> Run(Run(Start, half, before), half, after).alpha == 0
  {
    SwapAtMidpoint(half, before);
    PhaseEnds(Run(Start, half, before), half, after);
  }

  /** A crossfade between two scenes (TransitionScene). */
  class Transition {
    const fromScene: Scene
    const toScene: Scene
    const half: real
    var t: real
    var alpha: int
    var swapped: bool
    var done: bool

    function Model(): Fade
      reads this
    {
      Fade(t, alpha, swapped, done)
    }

    ghost predicate Valid()
      reads this
    {
      half >= MinHalf && Inv(Model(), half)
    }

    constructor (fromScene: Scene, toScene: Scene, duration: real)
      ensures Valid()
      ensures this.fromScene == fromScene && this.toScene == toScene
      ensures half == HalfDuration(duration) && half > 0.0
      ensures Model() == Start
    {
      this.fromScene := fromScene;
      this.toScene := toScene;
      half := HalfDuration(duration);
      t := 0.0;
      alpha := 0;
      swapped := false;
      done := false;
    }

    /** Forwards `dt` to the outgoing scene before the swap and to the incoming one after it, then advances the fade. */
    method Update(dt: real, ghost trace: Trace)
      requires Valid() && dt >= 0.0
      modifies this, trace
      ensures Valid()
      ensures Model() == Step(old(Model()), half, dt)
      ensures trace.events == old(trace.events) + [Updated(if old(swapped) then toScene else fromScene, dt)]
    {
      if !swapped {
        fromScene.Update(dt, trace);
      } else {
        toScene.Update(dt, trace);
      }
      t := t + dt;
      if !swapped {
        var p := Progress(t, half);
        alpha := Trunc(255.0 * p);
        if p >= 1.0 {
          swapped := true;
          t := 0.0;
        }
      } else {
        var p := Progress(t, half);
        alpha := Trunc(255.0 * (1.0 - p));
        if p >= 1.0 {
          alpha := 0;
          done := true;
        }
      }
      StepKeepsInv(old(Model()), half, dt);
    }

    /** Draws the outgoing scene until the swap and the incoming one from then on; changes no field. */
    method Draw(ghost trace: Trace)
      modifies trace
      ensures trace.events == old(trace.events) + [Drew(if swapped then toScene else fromScene)]
    {
      if !swapped {
        fromScene.Draw(trace);
      } else {
        toScene.Draw(trace);
      }
    }
  }
}
