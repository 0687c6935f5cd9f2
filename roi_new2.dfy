/** RoiNew2.py: one blocking socket, `send_with_retry` without delay, the
    battery check that retries only a `ValueError`, and `drone_control`'s
    nested chain `command` → battery → `takeoff` → `flip f` → `back 30` →
    `land`; its `except` reads the battery once more instead of landing. */
module RoiNew2 {
  import opened Wrappers
  import opened Transport
  import opened Reliable
  import opened Readings
  import opened Chains

  /** The retried steps after the battery check. */
  const Steps: seq<string> := ["takeoff", "flip f", "back 30"]

  /** The `except` branch: `battery_check` again, whose own `TypeError` on a
      failed receive (`send_command` returns `None`) is not caught by
      anyone. */
  function Handler(peer: Addr, w: Wire): (f: Flown)
    ensures f.end == Handled || f.end == Escaped
    ensures |w.sent| < |f.after.sent| <= |w.sent| + 3
    ensures f.after.sent == w.sent + Repeat("battery?", |f.after.sent| - |w.sent|)
    ensures w.sent <= f.after.sent
  {
    var c := BatteryPersistent(Blocking, peer, w, 3);
    Flown(if c.gate == Raised then Escaped else Handled, c.after)
  }

  /** After the chain: `land` once, unretried, then one more battery check. */
  function Finish(peer: Addr, w: Wire): (f: Flown)
    ensures |f.after.sent| > |w.sent| && f.after.sent[|w.sent|] == "land" && w.sent <= f.after.sent
  {
    var l := Exchange(Blocking, peer, w, "land").after;
    var last := BatteryPersistent(Blocking, peer, l, 3);
    if last.gate == Raised then Handler(peer, last.after) else Flown(Finished, last.after)
  }

  /** `drone_control`. The SDK step takes any non-empty reply. The first
      command is `command`, sent once, and the run only adds to what was
      sent before it. */
  function DroneControl(peer: Addr, w: Wire): (f: Flown)
    ensures w.sent + ["command"] <= f.after.sent
  {
    var h := Exchange(Blocking, peer, w, "command");
    if !Truthy(h.reply) then Flown(Declined("command"), h.after)
    else
      var bat := BatteryPersistent(Blocking, peer, h.after, 3);
      match bat.gate
      case Raised => Handler(peer, bat.after)
      case Refused => Flown(Declined("battery?"), bat.after)
      case Passed =>
        var c := Chain(Blocking, peer, bat.after, Steps, 3, 0);
        if c.done < |Steps| then Flown(Declined(Steps[c.done]), c.after)
        else Finish(peer, c.after)
  }

  /** What a run that stopped before `land` may have sent. */
  const Checks := {"command", "battery?", "takeoff", "flip f", "back 30"}

  /** Whether the SDK step, the battery and the whole chain succeeded. */
  predicate ChainCompleted(peer: Addr, w: Wire) {
    var h := Exchange(Blocking, peer, w, "command");
    var bat := BatteryPersistent(Blocking, peer, h.after, 3);
    Truthy(h.reply) && bat.gate == Passed && Chain(Blocking, peer, bat.after, Steps, 3, 0).done == |Steps|
  }

  /** A chain that stops short sends only its own steps. */
  lemma ShortChainSendsSteps(peer: Addr, w: Wire)
    ensures var c := Chain(Blocking, peer, w, Steps, 3, 0);
      c.done < |Steps| ==> SendsOnly(w, c.after, Checks)
  {
    var c := Chain(Blocking, peer, w, Steps, 3, 0);
    forall s | s in c.after.sent[|w.sent|..] ensures s in Checks {
      assert s in Steps;
    }
  }

  /** A run that did not complete the chain sent nothing but the checks and
      the chain's own steps. */
  lemma EarlyEndSendsOnlyChecks(peer: Addr, w: Wire)
    ensures !ChainCompleted(peer, w) ==> SendsOnly(w, DroneControl(peer, w).after, Checks)
  {
    var h := Exchange(Blocking, peer, w, "command");
    RepeatSendsOnly(w, h.after, "command");
    if Truthy(h.reply) {
      var bat := BatteryPersistent(Blocking, peer, h.after, 3);
      RepeatSendsOnly(h.after, bat.after, "battery?");
      SendsOnlyThen(w, h.after, bat.after, {"command"}, {"battery?"});
      if bat.gate == Raised {
        var f := Handler(peer, bat.after);
        RepeatSendsOnly(bat.after, f.after, "battery?");
        SendsOnlyThen(w, bat.after, f.after, {"command", "battery?"}, {"battery?"});
      } else if bat.gate == Passed {
        var c := Chain(Blocking, peer, bat.after, Steps, 3, 0);
        ShortChainSendsSteps(peer, bat.after);
        if c.done < |Steps| {
          SendsOnlyThen(w, bat.after, c.after, {"command", "battery?"}, Checks);
        }
      }
    }
  }

  /** `land` goes out only once SDK mode, the battery and all three retried
      steps have succeeded, `back 30` last among them. */
  lemma LandOnlyAfterWholeChain(peer: Addr, w: Wire)
    ensures "land" in DroneControl(peer, w).after.sent[|w.sent|..] ==> ChainCompleted(peer, w)
  {
    if !ChainCompleted(peer, w) {
      EarlyEndSendsOnlyChecks(peer, w);
      NeverSent(w, DroneControl(peer, w).after, Checks, "land");
    }
  }

  /** The SDK step is satisfied by any non-empty reply, not only `ok`: an
      `error` reply still leads to the battery query. */
  lemma SdkTakesAnyReply(peer: Addr, w: Wire, reply: string)
    requires reply != "" && Exchange(Blocking, peer, w, "command").reply == Some(reply)
    ensures var s := DroneControl(peer, w).after.sent;
      |s| > |w.sent| + 1 && s[|w.sent|] == "command" && s[|w.sent| + 1] == "battery?"
  {
    var h := Exchange(Blocking, peer, w, "command");
    var bat := BatteryPersistent(Blocking, peer, h.after, 3);
    assert bat.after.sent[|h.after.sent|] == Repeat("battery?", |bat.after.sent| - |h.after.sent|)[0];
    var run := DroneControl(peer, w);
    assert bat.after.sent <= run.after.sent;
  }

  /** A failed receive spoils only its own exchange: when the first battery
      reading fails, the `except` reads the battery again and, given an
      integer, handles the exception. */
  lemma RecoversFromFailedReceive(peer: Addr, w: Wire)
    requires |w.inbox| >= 3
    requires !w.inbox[0].fails && w.inbox[0].payload != ""
    requires w.inbox[1].fails
    requires !w.inbox[2].fails && LevelOf(Some(w.inbox[2].payload)).Some?
    ensures DroneControl(peer, w).end == Handled
  {
    var h := Exchange(Blocking, peer, w, "command");
    assert h.after.inbox == w.inbox[1..];
    var b := Exchange(Blocking, peer, h.after, "battery?");
    assert b.reply == None && b.after.inbox == w.inbox[2..];
    var bat := BatteryPersistent(Blocking, peer, h.after, 3);
    assert bat == Checked(Raised, b.after);
    var c := Exchange(Blocking, peer, bat.after, "battery?");
    assert c.reply == Some(w.inbox[2].payload);
    assert Handler(peer, bat.after).end == Handled;
  }

  /** `drone_control` on a link. */
  method DroneControlOn(link: Link) returns (end: Ending)
    modifies link
    ensures Flown(end, link.State()) == DroneControl(link.peer, old(link.State()))
  {
    var resp := link.SendCommand(Blocking, "command");
    if !Truthy(resp) {
      return Declined("command");
    }
    var g := CheckBatteryPersistent(link, Blocking, 3);
    if g == Refused {
      return Declined("battery?");
    }
    if g == Passed {
      var done := ChainOn(link, Blocking, Steps, 3, 0);
      if done < |Steps| {
        return Declined(Steps[done]);
      }
      var _ := link.SendCommand(Blocking, "land");
      g := CheckBatteryPersistent(link, Blocking, 3);
      if g != Raised {
        return Finished;
      }
    }
    g := CheckBatteryPersistent(link, Blocking, 3);
    end := if g == Raised then Escaped else Handled;
  }
}
