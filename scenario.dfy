/**
  Clients of the scheduler: frame-by-frame scenarios checked against the
  contracts alone. They show the crossfade timeline, that the frame after a
  crossfade ends exits and re-enters its target (the crossfade path leaves
  the pending name set), and that a request made during a crossfade is
  applied after it.
*/
module SceneScenario {
  import opened Wrappers
  import opened Scenes
  import opened Transitions
  import opened SceneManagement

  /** Registers scenes "a", "b" and "c", switches to "a" and runs one frame. */
  method Setup() returns (trace: Trace, manager: SceneManager, a: Scene, b: Scene, c: Scene)
    ensures manager.Valid() && manager.trace == trace
    ensures fresh(manager) && fresh(trace)
    ensures manager.scenes == map["a" := a, "b" := b, "c" := c]
    ensures a != b && b != c && a != c
    ensures manager.current == a && manager.next == None && manager.transition == null
    ensures trace.events == [Entered(a), Updated(a, 0.016)]
  {
    trace := new Trace();
    manager := new SceneManager(trace);
    a := new Scene();
    b := new Scene();
    c := new Scene();
    manager.RegisterScene("a", a);
    manager.RegisterScene("b", b);
    manager.RegisterScene("c", c);
    var status := manager.ChangeScene("a", false, 0.25);
    assert manager.next == Some("a") && manager.current == null;
    manager.Update(0.016);
  }

  /** A crossfade of half-duration 0.2 s: opacity 127 at 0.1 s, swap at 0.2 s, done 0.2 s after the swap. */
  method CrossfadeScenario()
  {
    var trace, manager, a, b, c := Setup();
    var status := manager.ChangeScene("b", true, 0.2);
    var tr := manager.transition;
    assert tr != null && tr.half == 0.2 && tr.fromScene == a && tr.toScene == b;
    assert manager.current == a && manager.next == Some("b");

    manager.Update(0.1);
    assert tr.Model() == Fade(0.1, 127, false, false);
    assert manager.current == a && manager.transition == tr;

    ghost var beforeSwap := trace.events;
    manager.Update(0.1);
    assert tr.Model() == Fade(0.0, 255, true, false);
    assert manager.current == b && manager.transition == tr;
    assert trace.events == beforeSwap + [Updated(a, 0.1), Exited(a), Entered(b)];

    manager.Update(0.2);
    assert tr.done && manager.transition == null;
    assert manager.current == b && manager.next == Some("b");
    ReenterAfterCrossfade(manager, b);
  }

  /** The frame after a crossfade to `b` ends runs `exit` and `enter` on `b` again. */
  method ReenterAfterCrossfade(manager: SceneManager, b: Scene)
    requires manager.Valid() && manager.transition == null
    requires manager.next == Some("b") && "b" in manager.scenes && manager.scenes["b"] == b
    requires manager.current == b
    modifies manager, manager.trace
  {
    ghost var before := manager.trace.events;
    manager.Update(0.016);
    assert SwitchEvents(b, b) == [Exited(b), Entered(b)];
    assert manager.trace.events == before + [Exited(b), Entered(b), Updated(b, 0.016)];
    assert manager.current == b && manager.next == None;
  }

  /** A request made while a crossfade runs is kept, and applied right after the crossfade ends. */
  method DeferredRequestScenario()
  {
    var trace, manager, a, b, c := Setup();
    var status := manager.ChangeScene("b", true, 0.05);
    var tr := manager.transition;
    status := manager.ChangeScene("c", true, 1.0);
    assert manager.transition == tr && manager.next == Some("c");
    manager.Update(0.05);
    assert manager.current == b && manager.transition == tr;
    manager.Update(0.05);
    assert manager.transition == null && manager.next == Some("c");
    manager.Update(0.0);
    assert manager.current == c;
  }
}
