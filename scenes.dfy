/**
  The Scene contract: an opaque unit of behaviour with four hooks.
  A concrete scene's own behaviour is not part of this model; what the model
  observes is the order in which the scheduler and the crossfade call the hooks.
  Every hook call is appended to a ghost log (`Trace.events`), so that contracts
  can say which hook ran on which scene, how many times, and in what order.
*/
module Scenes {

  /** One observed hook call. */
  datatype Hook =
    | Entered(scene: Scene)
    | Exited(scene: Scene)
    | Updated(scene: Scene, dt: real)
    | Drew(scene: Scene)

  /** The log of hook calls made so far (observation only). */
  class Trace {
    ghost var events: seq<Hook>

    constructor ()
      ensures events == []
    {
      events := [];
    }
  }

  /** A screen of the application; its hooks default to no-ops. */
  class Scene {
    constructor ()
    {
    }

    method Enter(ghost trace: Trace)
      modifies trace
      ensures trace.events == old(trace.events) + [Entered(this)]
    {
      trace.events := trace.events + [Entered(this)];
    }

    method Exit(ghost trace: Trace)
      modifies trace
      ensures trace.events == old(trace.events) + [Exited(this)]
    {
      trace.events := trace.events + [Exited(this)];
    }

    method Update(dt: real, ghost trace: Trace)
      modifies trace
      ensures trace.events == old(trace.events) + [Updated(this, dt)]
    {
      trace.events := trace.events + [Updated(this, dt)];
    }

    method Draw(ghost trace: Trace)
      modifies trace
      ensures trace.events == old(trace.events) + [Drew(this)]
    {
      trace.events := trace.events + [Drew(this)];
    }
  }

  /** The hooks a scene switch runs: `exit` on the outgoing scene if there is one, then `enter` on the incoming one. */
  ghost function SwitchEvents(outgoing: Scene?, incoming: Scene): seq<Hook>
  {
    (if outgoing != null then [Exited(outgoing)] else []) + [Entered(incoming)]
  }
}
