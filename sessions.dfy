/** One drone's `control_drone` in the scripts that guard their launch:
    SDK mode, the battery gate, takeoff and the climb, then the key loop.
    tello_multi_height_sync.py and HandControl2_WithRetry_Rename_3.py insert
    height levelling between the climb and the loop (module HeightSync). */
module Sessions {
  import opened Wrappers
  import opened Transport
  import opened Reliable
  import opened Readings
  import opened KeyLoop

  /** The climb of `MOVE_DIST` after takeoff. */
  const Climb := "up 50"

  /** Which battery gate a script uses before takeoff. */
  datatype BatteryForm = SingleQuery | ThreeQueries

  /** What differs between the launch sequences: the socket's receiver, the
      retry count of `send_with_retry`'s default, the battery gate, and
      whether the video stream is switched on before takeoff. */
  datatype LaunchPlan = LaunchPlan(receiver: Receiver, retries: int, battery: BatteryForm, video: bool)

  /** The step at which a launch gave up. */
  datatype Stage = SdkRefused | LowBattery | TakeoffFailed

  /** A launch's result: the drone stayed on the ground, or is in the air. */
  datatype Launched = Grounded(stage: Stage, after: Wire) | Airborne(after: Wire)

  /** A whole session: given up during the launch, or flown until the key
      loop ended. */
  datatype Run = Aborted(stage: Stage, after: Wire) | Flew(end: LoopEnd, after: Wire)

  /** The battery gate before takeoff. */
  function BatteryGate(plan: LaunchPlan, peer: Addr, w: Wire): (o: Outcome)
    ensures |o.after.sent| >= |w.sent|
    ensures o.after.sent == w.sent + Repeat("battery?", |o.after.sent| - |w.sent|)
  {
    match plan.battery
    case SingleQuery =>
      var h := Exchange(plan.receiver, peer, w, "battery?");
      assert h.after.sent == w.sent + Repeat("battery?", 1);
      Outcome(BatteryOk(h.reply), h.after)
    case ThreeQueries => BatteryRetried(plan.receiver, peer, w, 3)
  }

  /** The takeoff step, with the video stream switched on before it and off
      again when it fails. It can only fail as a failed takeoff, and a drone
      it reports airborne was sent `takeoff`. */
  function Takeoff(plan: LaunchPlan, peer: Addr, w: Wire): (l: Launched)
    ensures w.sent <= l.after.sent && l.after.open == w.open
    ensures l.Grounded? ==> l.stage == TakeoffFailed
    ensures l.Airborne? ==> "takeoff" in l.after.sent[|w.sent|..]
  {
    var w1 := if plan.video then Sleep(Retry(plan.receiver, peer, w, "streamon", plan.retries, 1000).after, 500) else w;
    var off := Retry(plan.receiver, peer, w1, "takeoff", 5, 2000);
    if !off.ok then
      Grounded(TakeoffFailed,
               if plan.video then Retry(plan.receiver, peer, off.after, "streamoff", plan.retries, 1000).after
               else off.after)
    else
      var up := Retry(plan.receiver, peer, off.after, Climb, plan.retries, 1000);
      assert off.after.sent[|off.after.sent| - 1] == "takeoff" by {
        var n := |off.after.sent| - |w1.sent|;
        assert off.after.sent[|off.after.sent| - 1] == Repeat("takeoff", n)[n - 1];
      }
      assert up.after.sent[|off.after.sent| - 1] == "takeoff";
      assert up.after.sent[|w.sent|..][|off.after.sent| - 1 - |w.sent|] == "takeoff";
      Airborne(up.after)
  }

  /** The launch: `command` until `ok`, the battery gate, then takeoff with
      five tries 2 s apart, then the climb, whose failure is ignored. Its first
      command is `command`, and a drone it reports airborne was sent
      `takeoff`. */
  function Launch(plan: LaunchPlan, peer: Addr, w: Wire): (l: Launched)
    ensures w.sent <= l.after.sent && l.after.open == w.open
    ensures plan.retries > 0 ==> |l.after.sent| > |w.sent| && l.after.sent[|w.sent|] == "command"
    ensures l.Airborne? ==> "takeoff" in l.after.sent[|w.sent|..]
  {
    var sdk := Retry(plan.receiver, peer, w, "command", plan.retries, 1000);
    if !sdk.ok then Grounded(SdkRefused, sdk.after)
    else
      var bat := BatteryGate(plan, peer, sdk.after);
      if !bat.ok then Grounded(LowBattery, bat.after)
      else
        var t := Takeoff(plan, peer, bat.after);
        assert t.after.sent[|bat.after.sent|..] == t.after.sent[|w.sent|..][|bat.after.sent| - |w.sent|..];
        t
  }

  /** A command sent after index `from` stays there as more are sent. */
  lemma InLaterSuffix(a: seq<string>, b: seq<string>, from: nat, x: string)
    requires from <= |a| && a <= b && x in a[from..]
    ensures x in b[from..]
  {
    var k :| 0 <= k < |a[from..]| && a[from..][k] == x;
    assert b[from..][k] == x;
  }

  /** Every command from index `from` on is one of `allowed`. */
  predicate OnlyFrom(s: seq<string>, from: nat, allowed: set<string>) {
    forall i :: from <= i < |s| ==> s[i] in allowed
  }

  /** Until the SDK has answered `ok` and the battery gate has passed, a
      session sends only `command` and `battery?`: a drone with a low or
      unreadable battery is never told to take off. */
  lemma ChecksBeforeTakeoff(plan: LaunchPlan, peer: Addr, w: Wire)
    ensures var l := Launch(plan, peer, w);
      l.Grounded? && l.stage != TakeoffFailed ==> OnlyFrom(l.after.sent, |w.sent|, {"command", "battery?"})
  {
    var sdk := Retry(plan.receiver, peer, w, "command", plan.retries, 1000);
    var n := |sdk.after.sent| - |w.sent|;
    forall i | |w.sent| <= i < |sdk.after.sent| ensures sdk.after.sent[i] == "command" {
      assert sdk.after.sent[i] == Repeat("command", n)[i - |w.sent|];
    }
    if sdk.ok {
      var bat := BatteryGate(plan, peer, sdk.after);
      var m := |bat.after.sent| - |sdk.after.sent|;
      forall i | |sdk.after.sent| <= i < |bat.after.sent| ensures bat.after.sent[i] == "battery?" {
        assert bat.after.sent[i] == Repeat("battery?", m)[i - |sdk.after.sent|];
      }
      assert bat.after.sent[..|sdk.after.sent|] == sdk.after.sent;
    }
  }

  /** Hence a session that sent `takeoff` had its SDK answer `ok` and passed
      the battery gate. */
  lemma TakeoffNeedsChecks(plan: LaunchPlan, peer: Addr, w: Wire)
    requires "takeoff" in Launch(plan, peer, w).after.sent[|w.sent|..]
    ensures var sdk := Retry(plan.receiver, peer, w, "command", plan.retries, 1000);
      sdk.ok && BatteryGate(plan, peer, sdk.after).ok
  {
    ChecksBeforeTakeoff(plan, peer, w);
    var l := Launch(plan, peer, w);
    var k :| 0 <= k < |l.after.sent[|w.sent|..]| && l.after.sent[|w.sent|..][k] == "takeoff";
    assert l.after.sent[|w.sent| + k] == "takeoff";
  }

  /** A drone that never answers is never launched: the session spends its
      retries on `command`, one timeout and one second each, and stops. */
  lemma SilentDroneStaysGrounded(plan: LaunchPlan, peer: Addr, w: Wire)
    requires !plan.receiver.Blocking? && w.inbox == [] && plan.retries >= 0
    ensures Launch(plan, peer, w)
      == Grounded(SdkRefused, w.(sent := w.sent + Repeat("command", plan.retries),
                                 clock := w.clock + plan.retries * (plan.receiver.timeout + 1000)))
  {
    SilentDroneExhaustsRetries(plan.receiver, peer, w, "command", plan.retries, 1000);
  }

  /** With video on, a takeoff that fails switches the stream off again:
      `streamoff` is the last command sent. */
  lemma FailedTakeoffStopsVideo(plan: LaunchPlan, peer: Addr, w: Wire)
    requires plan.video && plan.retries > 0
    requires Launch(plan, peer, w).Grounded? && Launch(plan, peer, w).stage == TakeoffFailed
    ensures var s := Launch(plan, peer, w).after.sent; |s| > 0 && s[|s| - 1] == "streamoff"
  {
    var sdk := Retry(plan.receiver, peer, w, "command", plan.retries, 1000);
    var bat := BatteryGate(plan, peer, sdk.after);
    var w1 := Sleep(Retry(plan.receiver, peer, bat.after, "streamon", plan.retries, 1000).after, 500);
    var off := Retry(plan.receiver, peer, w1, "takeoff", 5, 2000);
    var stop := Retry(plan.receiver, peer, off.after, "streamoff", plan.retries, 1000);
    assert Launch(plan, peer, w).after == stop.after;
    var n := |stop.after.sent| - |off.after.sent|;
    assert n >= 1;
    assert stop.after.sent[|stop.after.sent| - 1] == Repeat("streamoff", n)[n - 1];
  }

  /** Launch, key loop, and with video on, `streamoff` in the `finally` once
      the loop has ended, however it ended; a loop still running after the
      polls given has not reached the `finally`. */
  function Session(plan: LaunchPlan, p: Profile, peer: Addr, w: Wire, polls: seq<Poll>): (r: Run)
    ensures w.sent <= r.after.sent && r.after.open == w.open
    ensures r.Flew? ==> "takeoff" in r.after.sent[|w.sent|..]
  {
    match Launch(plan, peer, w)
    case Grounded(st, a) => Aborted(st, a)
    case Airborne(a) =>
      var f := Fly(p, peer, a, polls);
      var after := if plan.video && f.end != Unfinished then Retry(plan.receiver, peer, f.after, "streamoff", plan.retries, 1000).after else f.after;
      InLaterSuffix(a.sent, after.sent, |w.sent|, "takeoff");
      Flew(f.end, after)
  }

  /** The launch on a link. */
  method LaunchOn(link: Link, plan: LaunchPlan) returns (stage: Option<Stage>)
    modifies link
    ensures match Launch(plan, link.peer, old(link.State()))
      case Grounded(st, a) => stage == Some(st) && link.State() == a
      case Airborne(a) => stage == None && link.State() == a
  {
    var ok := SendWithRetry(link, plan.receiver, "command", plan.retries, 1000);
    if !ok {
      return Some(SdkRefused);
    }
    match plan.battery {
      case SingleQuery =>
        var resp := link.SendCommand(plan.receiver, "battery?");
        ok := BatteryOk(resp);
      case ThreeQueries =>
        ok := CheckBatteryRetried(link, plan.receiver, 3);
    }
    if !ok {
      return Some(LowBattery);
    }
    if plan.video {
      var _ := SendWithRetry(link, plan.receiver, "streamon", plan.retries, 1000);
      link.Pause(500);
    }
    ok := SendWithRetry(link, plan.receiver, "takeoff", 5, 2000);
    if !ok {
      if plan.video {
        var _ := SendWithRetry(link, plan.receiver, "streamoff", plan.retries, 1000);
      }
      return Some(TakeoffFailed);
    }
    var _ := SendWithRetry(link, plan.receiver, Climb, plan.retries, 1000);
    return None;
  }

  /** `control_drone` on a link. */
  method RunSession(link: Link, plan: LaunchPlan, p: Profile, polls: seq<Poll>) returns (run: Run)
    modifies link
    ensures run == Session(plan, p, link.peer, old(link.State()), polls)
  {
    var stage := LaunchOn(link, plan);
    if stage.Some? {
      return Aborted(stage.value, link.State());
    }
    var end := FlyByKeys(link, p, polls);
    if plan.video && end != Unfinished {
      var _ := SendWithRetry(link, plan.receiver, "streamoff", plan.retries, 1000);
    }
    return Flew(end, link.State());
  }
}
