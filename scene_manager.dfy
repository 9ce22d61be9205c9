/**
  The scene scheduler (SceneManager): a registry from names to scenes, the
  current scene, a pending switch target and at most one crossfade in flight.

  The model follows the code as written, including two behaviours that differ
  from a "drop requests during a transition" reading:
  - `change_scene` records the requested name as the pending switch before it
    looks at the transition, so a request made while a crossfade runs is kept
    (the last one wins) and applied once the crossfade is gone;
  - the crossfade path also records its name as pending and the midpoint swap
    never clears it, so the `update` after a crossfade ends exits and enters
    the target scene a second time.
*/
module SceneManagement {
  import opened Wrappers
  import opened Scenes
  import opened Transitions

  /** The only error the scheduler raises: a request for a name that is not registered. */
  datatype Status = Ok | NotFound(name: string)

  class SceneManager {
    var scenes: map<string, Scene>
    var current: Scene?
    var next: Option<string>
    var transition: Transition?
    var transitionTarget: Option<string>
    var didSwap: bool
    /** Where the hook calls are observed. */
    ghost const trace: Trace

    ghost predicate Valid()
      reads this, transition
    {
      && (next.Some? ==> next.value in scenes)
      && (transition == null <==> transitionTarget.None?)
      && (transition == null ==> !didSwap)
      && (transition != null ==>
            && transition.Valid()
            && transitionTarget.value in scenes
            && current != null
            && !transition.done
            && didSwap == transition.swapped
            && (!didSwap ==> current == transition.fromScene))
    }

    constructor (ghost trace: Trace)
      ensures Valid()
      ensures this.trace == trace
      ensures scenes == map[] && current == null && next == None
      ensures transition == null && transitionTarget == None && !didSwap
    {
      this.trace := trace;
      scenes := map[];
      current := null;
      next := None;
      transition := null;
      transitionTarget := None;
      didSwap := false;
    }

    /** Upsert: `name` now maps to `scene`; every other entry and field is unchanged. */
    method RegisterScene(name: string, scene: Scene)
      requires Valid()
      modifies this
      ensures Valid()
      ensures scenes == old(scenes)[name := scene]
      ensures forall n :: n in old(scenes) && n != name ==> n in scenes && scenes[n] == old(scenes)[n]
      ensures current == old(current) && next == old(next)
      ensures transition == old(transition) && transitionTarget == old(transitionTarget) && didSwap == old(didSwap)
    {
      scenes := scenes[name := scene];
    }

    /**
      Requests a switch to `name`. An unknown name fails before anything changes.
      Otherwise `name` becomes the pending switch; a crossfade is created only
      when a scene is current, none is in flight and `useTransition` is set.
    */
    method ChangeScene(name: string, useTransition: bool, duration: real) returns (status: Status)
      requires Valid()
      modifies this
      ensures Valid()
      ensures name !in old(scenes) ==> status == NotFound(name) && unchanged(this)
      ensures name in old(scenes) ==>
        && status == Ok
        && scenes == old(scenes) && current == old(current)
        && next == Some(name)
      ensures name in old(scenes) && (old(current) == null || old(transition) != null || !useTransition) ==>
        transition == old(transition) && transitionTarget == old(transitionTarget) && didSwap == old(didSwap)
      ensures name in old(scenes) && old(current) != null && old(transition) == null && useTransition ==>
        && transition != null && fresh(transition)
        && transition.fromScene == old(current) && transition.toScene == scenes[name]
        && transition.half == HalfDuration(duration) && transition.Model() == Start
        && transitionTarget == Some(name) && !didSwap
    {
      if name !in scenes {
        return NotFound(name);
      }
      status := Ok;
      next := Some(name);
      if current == null {
        next := Some(name);
        return;
      }
      if transition != null {
        return;
      }
      if useTransition {
        transitionTarget := Some(name);
        didSwap := false;
        transition := new Transition(current, scenes[name], duration);
      } else {
        next := Some(name);
      }
    }

    /**
      `_perform_scene_switch`: exit the current scene (if any), make the target
      current, enter it; a plain switch (no `useTarget`) also clears the
      pending name. A switch with nothing to switch to does nothing.
    */
    method PerformSceneSwitch(useTarget: Option<string>)
      requires useTarget.Some? ==> useTarget.value in scenes
      requires next.Some? ==> next.value in scenes
      modifies this, trace
      ensures scenes == old(scenes) && transition == old(transition)
      ensures transitionTarget == old(transitionTarget) && didSwap == old(didSwap)
      ensures var target := if useTarget.Some? then useTarget else old(next);
        if target.None? then
          current == old(current) && next == old(next) && trace.events == old(trace.events)
        else
          && current == scenes[target.value]
          && next == (if useTarget.None? then None else old(next))
          && trace.events == old(trace.events) + SwitchEvents(old(current), current)
    {
      var target := if useTarget.Some? then useTarget else next;
      if target.None? {
        return;
      }
      if current != null {
        current.Exit(trace);
      }
      current := scenes[target.value];
      current.Enter(trace);
      if useTarget.None? {
        next := None;
      }
    }

    /**
      One frame. A pending switch is applied only when no crossfade exists; the
      (possibly new) current scene then gets `dt`. While a crossfade exists,
      `dt` goes to it alone; the midpoint swap runs once, on the frame the
      crossfade reports `swapped`, and the crossfade is dropped on the frame it
      reports `done`.
    */
    method Update(dt: real)
      requires Valid() && dt >= 0.0
      modifies this, transition, trace
      ensures Valid()
      ensures scenes == old(scenes)
      // 1) a pending switch with no crossfade, then a normal update of the new scene
      ensures old(next).Some? && old(transition) == null ==>
        && current == scenes[old(next).value] && next == None
        && transition == null && transitionTarget == None && !didSwap
        && trace.events == old(trace.events) + SwitchEvents(old(current), current) + [Updated(current, dt)]
      // 2) a crossfade in flight: it alone gets dt; swap at most once; dropped when done
      ensures old(transition) != null ==>
        var tr := old(transition);
        var swapNow := !old(tr.swapped) && tr.swapped;
        && tr.Model() == Step(old(tr.Model()), tr.half, dt)
        && next == old(next)
        && current == (if swapNow then scenes[old(transitionTarget).value] else old(current))
        && trace.events == old(trace.events) + [Updated(if old(tr.swapped) then tr.toScene else tr.fromScene, dt)]
                           + (if swapNow then SwitchEvents(old(current), current) else [])
        && (if tr.done then transition == null && transitionTarget == None && !didSwap
            else transition == tr && transitionTarget == old(transitionTarget) && didSwap == tr.swapped)
      // 3) otherwise a normal update of the current scene, if any
      ensures old(next).None? && old(transition) == null ==>
        && current == old(current) && next == old(next)
        && transition == null && transitionTarget == None && !didSwap
        && trace.events == old(trace.events) + (if current != null then [Updated(current, dt)] else [])
    {
      if next.Some? && transition == null {
        PerformSceneSwitch(None);
      }
      if transition != null {
        transition.Update(dt, trace);
        if !didSwap && transition.swapped {
          didSwap := true;
          PerformSceneSwitch(transitionTarget);
        }
        if transition.done {
          transition := null;
          transitionTarget := None;
          didSwap := false;
        }
        return;
      }
      if current != null {
        current.Update(dt, trace);
      }
    }

    /** Draws the crossfade if one exists, else the current scene if any, else nothing; changes no field. */
    method Draw()
      modifies trace
      ensures trace.events == old(trace.events) +
        if transition != null then [Drew(if transition.swapped then transition.toScene else transition.fromScene)]
        else if current != null then [Drew(current)]
        else []
    {
      if transition != null {
        transition.Draw(trace);
        return;
      }
      if current != null {
        current.Draw(trace);
      }
    }
  }
}
