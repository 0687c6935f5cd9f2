/** tello_multi_height_sync2.py: its own socket per drone with the source
    filter, five tries for every `send_with_retry`, no levelling, and a key
    loop with an ungated flip, a flight scenario on `p` and a battery print
    on `b`, polling every 50 ms. */
module ScenarioSync {
  import opened Wrappers
  import opened Transport
  import opened Reliable
  import opened Keys
  import opened KeyLoop
  import opened Sessions

  /** The launch: source filter, five tries, single battery query. */
  const Plan := LaunchPlan(Matching(ReplyTimeout), 5, SingleQuery, false)

  /** The `p` scenario: three legs of `forward 50` and `cw 120`. */
  const Triangle: seq<string> := ["forward 50", "cw 120", "forward 50", "cw 120", "forward 50", "cw 120"]

  /** The branches after the movements, in the chain's order. */
  const Extras: seq<Binding> := [
    Binding(Space, Send("flip f"), 0), Binding(P, Scenario(Triangle), 0),
    Binding(B, Query("battery?"), 300), Binding(L, Land, 0)]

  /** The key loop, run in a daemon thread. */
  const Controls := Profile(Matching(ReplyTimeout), Retried(5, 1000), FirstMatch, Moves + Extras, 50, Fatal)

  /** `p` picks the scenario branch: no movement key is held. */
  lemma PicksScenario()
    ensures FirstPressed(Controls.bindings, {P}) == Some(|Moves| + 1)
    ensures Controls.bindings[|Moves| + 1] == Binding(P, Scenario(Triangle), 0)
  {
    FirstPressedAfter(Moves, Extras, {P});
  }

  /** `p` flies the whole scenario as `execute_flight_path` with five tries
      per leg, and the loop goes on; by `FlightPathAttemptsAll` every leg is
      then sent, in order, between one and five times, whatever the earlier
      legs got back. */
  lemma ScenarioFliesEveryLeg(peer: Addr, w: Wire)
    ensures var s := Cycle(Controls, peer, w, {P});
      && s.stop == None
      && s.after.sent == FlightPath(Matching(ReplyTimeout), peer, w, Triangle, 5, 1000).sent
  {
    PicksScenario();
    ScenarioCycle(Controls, peer, w, {P}, |Moves| + 1);
  }

  /** Ctrl+C as written: only the main thread gets it, and when it dies the
      daemon thread running the loop dies too, so no `land` is sent. */
  lemma CtrlCLeavesDroneFlying(peer: Addr, w: Wire, polls: seq<Poll>)
    requires Fly(Controls, peer, w, polls).end == Unfinished
    ensures Fly(Controls, peer, w, polls + [Interrupt]) == Flight(Interrupted, Fly(Controls, peer, w, polls).after)
  {
    CtrlCEndsSilently(Controls, peer, w, polls);
  }

  /** Ctrl+C where the main thread's `join` cannot be interrupted (as on
      Windows): the main thread goes on waiting and the daemon thread goes on
      polling as if nothing had happened, so again no `land` is sent. */
  lemma CtrlCDuringUninterruptibleJoin(peer: Addr, w: Wire, polls: seq<Poll>, more: seq<Poll>)
    ensures var p := Controls.(onCtrlC := Unseen);
      Fly(p, peer, w, polls + [Interrupt] + more) == Fly(p, peer, w, polls + more)
  {
    CtrlCUnseen(Controls.(onCtrlC := Unseen), peer, w, polls, more);
  }

  /** Ctrl+C as the handler intends it: were the interrupt delivered to the
      loop's thread, `land` would be sent, one to five times, and nothing
      else. */
  lemma RelayedCtrlCLands(peer: Addr, w: Wire, polls: seq<Poll>)
    requires Fly(Controls.(onCtrlC := Caught), peer, w, polls).end == Unfinished
    ensures var p := Controls.(onCtrlC := Caught);
      var before := Fly(p, peer, w, polls).after;
      var f := Fly(p, peer, w, polls + [Interrupt]);
      && f.end == Interrupted
      && |before.sent| + 1 <= |f.after.sent| <= |before.sent| + 5
      && f.after.sent == before.sent + Repeat("land", |f.after.sent| - |before.sent|)
  {
    CtrlCLands(Controls.(onCtrlC := Caught), peer, w, polls);
  }

  /** No branch of this loop can raise: it ends only by `l` or Ctrl+C. */
  lemma NeverCrashes(peer: Addr, w: Wire, polls: seq<Poll>)
    ensures Fly(Controls, peer, w, polls).end != Crashed
  {
    assert NoGatedFlip(Controls.bindings) by {
      assert forall i :: 0 <= i < |Moves| ==> Moves[i].action.Send?;
      forall i | 0 <= i < |Controls.bindings| ensures Controls.bindings[i].action != GatedFlip {
        if i >= |Moves| { assert Controls.bindings[i] == Extras[i - |Moves|]; }
      }
    }
    FlyNeverCrashes(Controls, peer, w, polls);
  }
}
