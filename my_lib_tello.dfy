/** MyLibTello.py: SDK mode by `send_with_retry`, LED signals around takeoff,
    four moves each tried on its own, then `land`; a failed takeoff or a
    failed landing falls back to `emergency_land` and a red LED. */
module MyLibTello {
  import opened Wrappers
  import opened Transport
  import opened Reliable
  import opened Chains

  /** The square flown after takeoff. */
  const Square: seq<string> := ["forward 100", "right 100", "back 100", "left 100"]

  /** Sent after SDK mode, replies ignored: the battery and a red LED. */
  const Prelude: seq<string> := ["battery?", "EXT led 255 0 0", "EXT mled l r 1 takeoff"]

  /** Sent after takeoff: a green LED. */
  const Flying: seq<string> := ["EXT led 0 255 0", "EXT mled l r 1 fly"]

  /** The red alarm of a failure. */
  const Alarm: seq<string> := ["EXT led 255 0 0", "EXT mled l r 1 !!!"]

  /** In the air: the square, then `land` by `send_with_retry`, falling back
      to the alarm and `emergency_land`. */
  function Airborne(peer: Addr, w: Wire): (f: Flown)
    ensures f.after.open == w.open
  {
    var w1 := FlightPath(Blocking, peer, Unchecked(Blocking, peer, w, Flying), Square, 3, 0);
    var down := Retry(Blocking, peer, w1, "land", 3, 0);
    if !down.ok then Flown(Declined("land"), EmergencyLanding(Unchecked(Blocking, peer, down.after, Alarm)))
    else Flown(Finished, down.after)
  }

  /** After SDK mode: the prelude, takeoff, and either the flight or the
      emergency landing followed by the alarm. */
  function Launch(peer: Addr, w: Wire): (f: Flown)
    ensures f.after.open == w.open
  {
    var off := Retry(Blocking, peer, Unchecked(Blocking, peer, w, Prelude), "takeoff", 3, 0);
    if !off.ok then Flown(Declined("takeoff"), Unchecked(Blocking, peer, EmergencyLanding(off.after), Alarm))
    else Airborne(peer, off.after)
  }

  /** `main`, with the socket closed in the `finally`. */
  function Script(peer: Addr, w: Wire): (f: Flown)
    ensures !f.after.open
    ensures f.end == Finished || f.end == Declined("command") || f.end == Declined("takeoff") || f.end == Declined("land")
  {
    var sdk := Retry(Blocking, peer, w, "command", 3, 0);
    var f := if !sdk.ok then Flown(Declined("command"), sdk.after) else Launch(peer, sdk.after);
    Flown(f.end, f.after.(open := false))
  }

  /** A refused SDK sends nothing but its three attempts. */
  lemma RefusedSdkSendsNothingElse(peer: Addr, w: Wire)
    ensures Script(peer, w).end == Declined("command") ==> Script(peer, w).after.sent == w.sent + Repeat("command", 3)
  {
  }

  /** A failed takeoff lands at once and raises the alarm afterwards. */
  lemma FailedTakeoffLandsFirst(peer: Addr, w: Wire)
    ensures Script(peer, w).end == Declined("takeoff") ==>
      exists pre :: Script(peer, w).after.sent == pre + Repeat("takeoff", 3) + ["land"] + Alarm
  {
    var sdk := Retry(Blocking, peer, w, "command", 3, 0);
    if sdk.ok {
      var w0 := Unchecked(Blocking, peer, sdk.after, Prelude);
      var off := Retry(Blocking, peer, w0, "takeoff", 3, 0);
      if !off.ok {
        assert Script(peer, w).after.sent == w0.sent + Repeat("takeoff", 3) + ["land"] + Alarm;
      }
    }
  }

  /** A failed landing raises the alarm first and lands after it. */
  lemma FailedLandingAlarmsFirst(peer: Addr, w: Wire)
    ensures Script(peer, w).end == Declined("land") ==>
      exists pre :: Script(peer, w).after.sent == pre + Repeat("land", 3) + Alarm + ["land"]
  {
    var sdk := Retry(Blocking, peer, w, "command", 3, 0);
    if sdk.ok {
      var off := Retry(Blocking, peer, Unchecked(Blocking, peer, sdk.after, Prelude), "takeoff", 3, 0);
      if off.ok {
        var w1 := FlightPath(Blocking, peer, Unchecked(Blocking, peer, off.after, Flying), Square, 3, 0);
        var down := Retry(Blocking, peer, w1, "land", 3, 0);
        if !down.ok {
          assert Script(peer, w).after.sent == w1.sent + Repeat("land", 3) + Alarm + ["land"];
        }
      }
    }
  }

  /** A finished flight's log after takeoff: the green LED, every side of
      the square tried one to three times, and `land` until its first `ok`. */
  lemma AirborneLog(peer: Addr, w: Wire) returns (counts: seq<nat>, c: nat)
    requires Airborne(peer, w).end == Finished
    ensures 1 <= c <= 3
    ensures |counts| == |Square| && forall i :: 0 <= i < |counts| ==> 1 <= counts[i] <= 3
    ensures Airborne(peer, w).after.sent == w.sent + Flying + Expand(Square, counts) + Repeat("land", c)
  {
    var wf := Unchecked(Blocking, peer, w, Flying);
    var w1 := FlightPath(Blocking, peer, wf, Square, 3, 0);
    var down := Retry(Blocking, peer, w1, "land", 3, 0);
    counts := FlightCounts(Blocking, peer, wf, Square, 3, 0);
    FlightPathAttemptsAll(Blocking, peer, wf, Square, 3, 0);
    c := |down.after.sent| - |w1.sent|;
    assert Airborne(peer, w).after == down.after;
    assert w1.sent == w.sent + Flying + Expand(Square, counts);
    assert down.after.sent == w1.sent + Repeat("land", c);
  }

  /** A finished run's log after SDK mode: the prelude, `takeoff` until its
      first `ok`, and the flight. */
  lemma LaunchLog(peer: Addr, w: Wire) returns (b: nat, counts: seq<nat>, c: nat)
    requires Launch(peer, w).end == Finished
    ensures 1 <= b <= 3 && 1 <= c <= 3
    ensures |counts| == |Square| && forall i :: 0 <= i < |counts| ==> 1 <= counts[i] <= 3
    ensures Launch(peer, w).after.sent
      == w.sent + Prelude + Repeat("takeoff", b) + Flying + Expand(Square, counts) + Repeat("land", c)
  {
    var w0 := Unchecked(Blocking, peer, w, Prelude);
    var off := Retry(Blocking, peer, w0, "takeoff", 3, 0);
    b := |off.after.sent| - |w0.sent|;
    counts, c := AirborneLog(peer, off.after);
    assert off.after.sent == w.sent + Prelude + Repeat("takeoff", b);
  }

  /** A finished run sends, in order: SDK mode, the prelude, takeoff, the
      green LED, every side of the square tried one to three times whatever
      the earlier sides returned, and `land`, each command until its first
      `ok`. */
  lemma FinishedFliesSquare(peer: Addr, w: Wire)
    ensures Script(peer, w).end == Finished ==>
      exists a: nat, b: nat, c: nat, counts: seq<nat> ::
        && 1 <= a <= 3 && 1 <= b <= 3 && 1 <= c <= 3
        && |counts| == |Square| && (forall i :: 0 <= i < |counts| ==> 1 <= counts[i] <= 3)
        && Script(peer, w).after.sent
          == w.sent + Repeat("command", a) + Prelude + Repeat("takeoff", b) + Flying + Expand(Square, counts) + Repeat("land", c)
  {
    var sdk := Retry(Blocking, peer, w, "command", 3, 0);
    if sdk.ok && Launch(peer, sdk.after).end == Finished {
      var a := |sdk.after.sent| - |w.sent|;
      var b, counts, c := LaunchLog(peer, sdk.after);
      assert Script(peer, w).after.sent == Launch(peer, sdk.after).after.sent;
      assert sdk.after.sent == w.sent + Repeat("command", a);
    }
  }

  /** `main` on a link. */
  method RunScript(link: Link) returns (end: Ending)
    modifies link
    ensures Flown(end, link.State()) == Script(link.peer, old(link.State()))
  {
    var ok := SendWithRetry(link, Blocking, "command", 3, 0);
    if !ok {
      end := Declined("command");
    } else {
      UncheckedOn(link, Blocking, Prelude);
      ok := SendWithRetry(link, Blocking, "takeoff", 3, 0);
      if !ok {
        link.EmergencyLand();
        UncheckedOn(link, Blocking, Alarm);
        end := Declined("takeoff");
      } else {
        UncheckedOn(link, Blocking, Flying);
        ExecuteFlightPath(link, Blocking, Square, 3, 0);
        ok := SendWithRetry(link, Blocking, "land", 3, 0);
        if !ok {
          UncheckedOn(link, Blocking, Alarm);
          link.EmergencyLand();
          end := Declined("land");
        } else {
          end := Finished;
        }
      }
    }
    link.Close();
  }
}
