/** HandControl2_WithRetry_Rename_2.py, HandControl2_WithRetry_Rename.py and
    HandControl2_WithRetry.py: one shared socket taking the first datagram
    unstripped, the three-query battery check, and an `if/elif` key loop with
    an ungated flip; the first also runs the video stream around the flight. */
module SharedSocket {
  import opened Transport
  import opened Reliable
  import opened Keys
  import opened KeyLoop
  import opened Sessions

  /** The shared socket's `send_command`: first datagram, raw text. */
  const Shared := AnySource(ReplyTimeout, false)

  /** HandControl2_WithRetry_Rename_2.py, with `VIDEO_ENABLED = True`. */
  const VideoPlan := LaunchPlan(Shared, 3, ThreeQueries, true)

  /** HandControl2_WithRetry_Rename.py and HandControl2_WithRetry.py. */
  const PlainPlan := LaunchPlan(Shared, 3, ThreeQueries, false)

  /** The key loop of all three, each run in a non-daemon thread. */
  const Controls := Profile(Shared, Retried(3, 1000), FirstMatch,
    Moves + [Binding(Space, Send("flip f"), 0), Binding(L, Land, 0)], 100, Unseen)

  /** With video on, every session that got the stream going switches it off
      at the end: `streamoff` is the last command, after a failed takeoff and
      after a key loop that ended alike. */
  lemma VideoAlwaysStopped(peer: Addr, w: Wire, polls: seq<Poll>)
    ensures var run := Session(VideoPlan, Controls, peer, w, polls);
      (run.Flew? && run.end != Unfinished) || (run.Aborted? && run.stage == TakeoffFailed) ==>
        |run.after.sent| > 0 && run.after.sent[|run.after.sent| - 1] == "streamoff"
  {
    var run := Session(VideoPlan, Controls, peer, w, polls);
    var l := Launch(VideoPlan, peer, w);
    if l.Grounded? && l.stage == TakeoffFailed {
      FailedTakeoffStopsVideo(VideoPlan, peer, w);
    } else if l.Airborne? && Fly(Controls, peer, l.after, polls).end != Unfinished {
      var f := Fly(Controls, peer, l.after, polls);
      var o := Retry(Shared, peer, f.after, "streamoff", 3, 1000);
      var n := |o.after.sent| - |f.after.sent|;
      assert n >= 1;
      assert o.after.sent[|o.after.sent| - 1] == Repeat("streamoff", n)[n - 1];
    }
  }

  /** Ctrl+C as written: only the main thread gets it, and the non-daemon
      thread running the loop goes on polling as if nothing had happened
      (the interpreter waits for it before it exits). */
  lemma CtrlCIgnored(peer: Addr, w: Wire, polls: seq<Poll>, more: seq<Poll>)
    ensures Fly(Controls, peer, w, polls + [Interrupt] + more) == Fly(Controls, peer, w, polls + more)
  {
    CtrlCUnseen(Controls, peer, w, polls, more);
  }

  /** Ctrl+C as the handler intends it: were the interrupt delivered to the
      loop's thread, `land` would be sent, one to three times, and nothing
      else. */
  lemma RelayedCtrlCLands(peer: Addr, w: Wire, polls: seq<Poll>)
    requires Fly(Controls.(onCtrlC := Caught), peer, w, polls).end == Unfinished
    ensures var p := Controls.(onCtrlC := Caught);
      var before := Fly(p, peer, w, polls).after;
      var f := Fly(p, peer, w, polls + [Interrupt]);
      && f.end == Interrupted
      && |before.sent| + 1 <= |f.after.sent| <= |before.sent| + 3
      && f.after.sent == before.sent + Repeat("land", |f.after.sent| - |before.sent|)
  {
    CtrlCLands(Controls.(onCtrlC := Caught), peer, w, polls);
  }

  /** No branch of this loop can raise and Ctrl+C never reaches it: it ends
      only by `l`. */
  lemma EndsOnlyByL(peer: Addr, w: Wire, polls: seq<Poll>)
    ensures Fly(Controls, peer, w, polls).end == Landed || Fly(Controls, peer, w, polls).end == Unfinished
  {
    FlyNeverInterrupted(Controls, peer, w, polls);
    assert NoGatedFlip(Controls.bindings) by {
      assert forall i :: 0 <= i < |Moves| ==> Moves[i].action.Send?;
      forall i | 0 <= i < |Controls.bindings| ensures Controls.bindings[i].action != GatedFlip {
      }
    }
    FlyNeverCrashes(Controls, peer, w, polls);
  }
}
