/** The `while True:` keyboard loops of the control scripts, over a script of
    keyboard snapshots: each cycle sees the set of keys held down, runs the
    branch or branches they select, and sleeps the poll interval unless the
    loop ended. */
module KeyLoop {
  import opened Wrappers
  import opened Transport
  import opened Reliable
  import opened Readings
  import opened Keys

  /** How a script sends an ordinary command.
      - `Retried`: `send_with_retry(cmd, retries, delay)`.
      - `Once`: one `send_command`, reply ignored.
      - `Tries`: KeyboardControl.py's `send_command` with its attempt loop. */
  datatype Delivery =
    | Retried(retries: int, delay: nat)
    | Once
    | Tries(tries: int)

  /** `FirstMatch`: an `if/elif` chain, one branch per cycle.
      `EveryPressed`: independent `if`s, every pressed branch in order. */
  datatype Dispatch = FirstMatch | EveryPressed

  /** What a Ctrl+C does to the loop.
      - `Caught`: the loop runs where the KeyboardInterrupt is raised, and
        its `except KeyboardInterrupt` sends `land` and ends it.
      - `Fatal`: the loop ends and nothing more is sent, because nothing
        catches the interrupt, or it kills the main thread and with it the
        daemon thread running the loop, or asyncio cancels the loop's task.
      - `Unseen`: the loop runs in a non-daemon thread, which never gets the
        interrupt and goes on polling. */
  datatype CtrlC = Caught | Fatal | Unseen

  /** Everything that distinguishes one script's loop from another's. */
  datatype Profile = Profile(
    receiver: Receiver,
    delivery: Delivery,
    dispatch: Dispatch,
    bindings: seq<Binding>,
    poll: nat,
    onCtrlC: CtrlC)

  /** One poll of the keyboard, or a Ctrl+C arriving between two polls. */
  datatype Poll = Pressed(keys: set<Key>) | Interrupt

  /** How the loop ended: the land key, Ctrl+C, an uncaught exception, or
      not at all within the polls given. */
  datatype LoopEnd = Landed | Interrupted | Crashed | Unfinished

  /** A cycle's effect: the end it caused, if any, and the socket afterwards. */
  datatype Step = Step(stop: Option<LoopEnd>, after: Wire)

  /** The loop's result: how it ended and the socket afterwards. */
  datatype Flight = Flight(end: LoopEnd, after: Wire)

  /** An ordinary command on the script's delivery path. */
  function Deliver(p: Profile, peer: Addr, w: Wire, cmd: string): (w': Wire)
    ensures w'.open == w.open && |w.sent| <= |w'.sent| <= |w.sent| + MostSends(p.delivery)
    ensures w'.sent == w.sent + Repeat(cmd, |w'.sent| - |w.sent|)
    ensures SendsAtLeastOnce(p.delivery) ==> |w'.sent| > |w.sent|
  {
    match p.delivery
    case Retried(n, d) => Retry(p.receiver, peer, w, cmd, n, d).after
    case Once => Exchange(p.receiver, peer, w, cmd).after
    case Tries(n) => Attempts(p.receiver, peer, w, cmd, n).after
  }

  /** Several commands, each on the delivery path, whatever the earlier
      ones returned. */
  function DeliverAll(p: Profile, peer: Addr, w: Wire, cmds: seq<string>): (w': Wire)
    ensures w'.open == w.open && w.sent <= w'.sent
    decreases |cmds|
  {
    if cmds == [] then w else DeliverAll(p, peer, Deliver(p, peer, w, cmds[0]), cmds[1..])
  }

  /** One branch of the loop. */
  function Perform(p: Profile, peer: Addr, w: Wire, b: Binding): (s: Step)
    ensures s.stop == None || s.stop == Some(Landed) || s.stop == Some(Crashed)
    ensures s.stop == Some(Landed) <==> b.action == Land
    ensures s.stop == Some(Crashed) ==> b.action == GatedFlip
    ensures w.sent <= s.after.sent && s.after.open == w.open
  {
    match b.action
    case Send(cmd) => Step(None, Sleep(Deliver(p, peer, w, cmd), b.pause))
    case Query(cmd) => Step(None, Sleep(Exchange(p.receiver, peer, w, cmd).after, b.pause))
    case GatedFlip =>
      var h := Exchange(p.receiver, peer, w, "battery?");
      (match FlipGate(h.reply)
       case Raised => Step(Some(Crashed), h.after)
       case Refused => Step(None, Sleep(h.after, b.pause))
       case Passed => Step(None, Sleep(Deliver(p, peer, h.after, "flip f"), b.pause)))
    case Scenario(cmds) => Step(None, Sleep(DeliverAll(p, peer, w, cmds), b.pause))
    case Land => Step(Some(Landed), Deliver(p, peer, w, "land"))
  }

  /** Independent `if`s: every pressed binding in order, until one ends the loop. */
  function PerformPressed(p: Profile, peer: Addr, w: Wire, bs: seq<Binding>, keys: set<Key>): (s: Step)
    ensures s.stop == None || s.stop == Some(Landed) || s.stop == Some(Crashed)
    ensures w.sent <= s.after.sent && s.after.open == w.open
    decreases |bs|
  {
    if bs == [] then Step(None, w)
    else if bs[0].key !in keys then PerformPressed(p, peer, w, bs[1..], keys)
    else
      var s := Perform(p, peer, w, bs[0]);
      if s.stop.Some? then s else PerformPressed(p, peer, s.after, bs[1..], keys)
  }

  /** One pass of the loop body with `keys` held down. */
  function Cycle(p: Profile, peer: Addr, w: Wire, keys: set<Key>): (s: Step)
    ensures s.stop == None || s.stop == Some(Landed) || s.stop == Some(Crashed)
    ensures w.sent <= s.after.sent && s.after.open == w.open
  {
    var s :=
      match p.dispatch
      case FirstMatch =>
        (match FirstPressed(p.bindings, keys)
         case None => Step(None, w)
         case Some(i) => Perform(p, peer, w, p.bindings[i]))
      case EveryPressed => PerformPressed(p, peer, w, p.bindings, keys);
    if s.stop.Some? then s else Step(None, Sleep(s.after, p.poll))
  }

  /** The whole loop over a script of polls. It only ever adds commands to
      what was sent before it, and never closes the socket. */
  function Fly(p: Profile, peer: Addr, w: Wire, polls: seq<Poll>): (f: Flight)
    ensures w.sent <= f.after.sent && f.after.open == w.open
    decreases |polls|
  {
    if polls == [] then Flight(Unfinished, w)
    else
      match polls[0]
      case Interrupt =>
        (match p.onCtrlC
         case Caught => Flight(Interrupted, Deliver(p, peer, w, "land"))
         case Fatal => Flight(Interrupted, w)
         case Unseen => Fly(p, peer, w, polls[1..]))
      case Pressed(keys) =>
        var s := Cycle(p, peer, w, keys);
        if s.stop.Some? then Flight(s.stop.value, s.after)
        else Fly(p, peer, s.after, polls[1..])
  }

  /** Once the loop has ended, later polls are never looked at. */
  lemma {:induction false} FlyIgnoresAfterEnd(p: Profile, peer: Addr, w: Wire, polls: seq<Poll>, more: seq<Poll>)
    requires Fly(p, peer, w, polls).end != Unfinished
    ensures Fly(p, peer, w, polls + more) == Fly(p, peer, w, polls)
    decreases |polls|
  {
    assert (polls + more)[0] == polls[0];
    assert (polls + more)[1..] == polls[1..] + more;
    if polls[0].Pressed? {
      var s := Cycle(p, peer, w, polls[0].keys);
      if s.stop.None? {
        FlyIgnoresAfterEnd(p, peer, s.after, polls[1..], more);
      }
    } else if p.onCtrlC == Unseen {
      FlyIgnoresAfterEnd(p, peer, w, polls[1..], more);
    }
  }

  /** A loop still running after `polls` goes on from where they left it. */
  lemma {:induction false} FlyResumes(p: Profile, peer: Addr, w: Wire, polls: seq<Poll>, more: seq<Poll>)
    requires Fly(p, peer, w, polls).end == Unfinished
    ensures Fly(p, peer, w, polls + more) == Fly(p, peer, Fly(p, peer, w, polls).after, more)
    decreases |polls|
  {
    if polls == [] {
      assert polls + more == more;
    } else {
      assert (polls + more)[0] == polls[0];
      assert (polls + more)[1..] == polls[1..] + more;
      if polls[0].Pressed? {
        FlyResumes(p, peer, Cycle(p, peer, w, polls[0].keys).after, polls[1..], more);
      } else {
        FlyResumes(p, peer, w, polls[1..], more);
      }
    }
  }

  /** How often an ordinary command is sent at most. */
  function MostSends(d: Delivery): nat {
    match d
    case Retried(n, _) => Max(n, 0)
    case Once => 1
    case Tries(n) => Max(n, 0)
  }

  /** Whether an ordinary command is sent at least once. */
  predicate SendsAtLeastOnce(d: Delivery) {
    match d
    case Retried(n, _) => n > 0
    case Once => true
    case Tries(n) => n > 0
  }

  /** Ctrl+C at any point of a running loop that catches it: `land` is sent,
      as often as an ordinary command at most, and nothing else, and the loop
      ends as interrupted. */
  lemma CtrlCLands(p: Profile, peer: Addr, w: Wire, polls: seq<Poll>)
    requires p.onCtrlC == Caught && SendsAtLeastOnce(p.delivery)
    requires Fly(p, peer, w, polls).end == Unfinished
    ensures var before := Fly(p, peer, w, polls).after;
      var f := Fly(p, peer, w, polls + [Interrupt]);
      && f.end == Interrupted
      && |before.sent| < |f.after.sent| <= |before.sent| + MostSends(p.delivery)
      && f.after.sent[|f.after.sent| - 1] == "land"
      && f.after.sent == before.sent + Repeat("land", |f.after.sent| - |before.sent|)
  {
    FlyResumes(p, peer, w, polls, [Interrupt]);
  }

  /** The part of `CtrlCLands` the scripts' lemmas quote: whenever the loop
      is still running, Ctrl+C ends it with `land` as the last command. */
  lemma CtrlCLandsLast(p: Profile, peer: Addr, w: Wire, polls: seq<Poll>)
    requires p.onCtrlC == Caught && SendsAtLeastOnce(p.delivery)
    ensures Fly(p, peer, w, polls).end == Unfinished ==>
      var f := Fly(p, peer, w, polls + [Interrupt]);
      f.end == Interrupted && |f.after.sent| > 0 && f.after.sent[|f.after.sent| - 1] == "land"
  {
    if Fly(p, peer, w, polls).end == Unfinished {
      CtrlCLands(p, peer, w, polls);
    }
  }

  /** Ctrl+C at any point of a running loop it ends without a handler: the
      loop ends as interrupted and nothing more is sent. */
  lemma CtrlCEndsSilently(p: Profile, peer: Addr, w: Wire, polls: seq<Poll>)
    requires p.onCtrlC == Fatal
    requires Fly(p, peer, w, polls).end == Unfinished
    ensures Fly(p, peer, w, polls + [Interrupt]) == Flight(Interrupted, Fly(p, peer, w, polls).after)
  {
    FlyResumes(p, peer, w, polls, [Interrupt]);
  }

  /** A loop that never sees Ctrl+C behaves, wherever one arrives, as if it
      had not been pressed. */
  lemma CtrlCUnseen(p: Profile, peer: Addr, w: Wire, polls: seq<Poll>, more: seq<Poll>)
    requires p.onCtrlC == Unseen
    ensures Fly(p, peer, w, polls + [Interrupt] + more) == Fly(p, peer, w, polls + more)
  {
    assert polls + [Interrupt] + more == polls + ([Interrupt] + more);
    if Fly(p, peer, w, polls).end == Unfinished {
      FlyResumes(p, peer, w, polls, [Interrupt] + more);
      FlyResumes(p, peer, w, polls, more);
      assert ([Interrupt] + more)[1..] == more;
    } else {
      FlyIgnoresAfterEnd(p, peer, w, polls, [Interrupt] + more);
      FlyIgnoresAfterEnd(p, peer, w, polls, more);
    }
  }

  /** An `if/elif` chain runs exactly one branch per cycle: keys of later
      branches held down at the same time change nothing. */
  lemma FirstMatchIgnoresLaterKeys(p: Profile, peer: Addr, w: Wire, i: nat, later: set<Key>)
    requires p.dispatch == FirstMatch && i < |p.bindings|
    requires forall j :: 0 <= j <= i ==> p.bindings[j].key !in later
    ensures Cycle(p, peer, w, {p.bindings[i].key} + later) == Cycle(p, peer, w, {p.bindings[i].key})
  {
    LaterKeysIgnored(p.bindings, i, later);
  }

  /** A cycle whose chain selects the land branch ends the loop with `land`
      as the last command sent, whatever polls come after. */
  lemma LandKeyEndsLoop(p: Profile, peer: Addr, w: Wire, keys: set<Key>, more: seq<Poll>)
    requires p.dispatch == FirstMatch && SendsAtLeastOnce(p.delivery)
    requires var i := FirstPressed(p.bindings, keys); i.Some? && p.bindings[i.value].action == Land
    ensures var f := Fly(p, peer, w, [Pressed(keys)] + more);
      f.end == Landed && |f.after.sent| > |w.sent| && f.after.sent[|f.after.sent| - 1] == "land"
  {
    assert ([Pressed(keys)] + more)[0] == Pressed(keys);
  }

  /** The commands independent `if`s send in one cycle when each is one
      `send_command` (`Once`): the pressed bindings' commands in binding
      order, up to and including `land`. */
  function PressedCommands(bs: seq<Binding>, keys: set<Key>): seq<string>
    decreases |bs|
  {
    if bs == [] then []
    else if bs[0].key !in keys then PressedCommands(bs[1..], keys)
    else match bs[0].action
      case Land => ["land"]
      case Send(cmd) => [cmd] + PressedCommands(bs[1..], keys)
      case Query(cmd) => [cmd] + PressedCommands(bs[1..], keys)
      case _ => PressedCommands(bs[1..], keys)
  }

  /** Bindings that only send fixed commands or land. */
  predicate PlainActions(bs: seq<Binding>) {
    forall i :: 0 <= i < |bs| ==> bs[i].action.Send? || bs[i].action.Land? || bs[i].action.Query?
  }

  /** With independent `if`s and one `send_command` per branch, a cycle sends
      exactly the pressed bindings' commands, in binding order, up to `land`. */
  lemma {:induction false} PressedInOrder(p: Profile, peer: Addr, w: Wire, bs: seq<Binding>, keys: set<Key>)
    requires p.delivery == Once && PlainActions(bs)
    ensures PerformPressed(p, peer, w, bs, keys).after.sent == w.sent + PressedCommands(bs, keys)
    decreases |bs|
  {
    if bs != [] {
      assert PlainActions(bs[1..]) by {
        forall i | 0 <= i < |bs[1..]| ensures bs[1..][i].action.Send? || bs[1..][i].action.Land? || bs[1..][i].action.Query? {
          assert bs[1..][i] == bs[i + 1];
        }
      }
      var s0 := Perform(p, peer, w, bs[0]);
      if bs[0].key !in keys {
        PressedInOrder(p, peer, w, bs[1..], keys);
      } else if !bs[0].action.Land? {
        PressedInOrder(p, peer, s0.after, bs[1..], keys);
      }
    }
  }

  /** No battery-gated flip among the bindings. */
  predicate NoGatedFlip(bs: seq<Binding>) {
    forall i :: 0 <= i < |bs| ==> bs[i].action != GatedFlip
  }

  /** Without a gated flip, independent `if`s end the loop exactly when a
      land binding is pressed, and then as landed. */
  lemma {:induction false} PressedStopsIffLand(p: Profile, peer: Addr, w: Wire, bs: seq<Binding>, keys: set<Key>)
    requires NoGatedFlip(bs)
    ensures var s := PerformPressed(p, peer, w, bs, keys);
      && (s.stop.Some? <==> exists i :: 0 <= i < |bs| && bs[i].key in keys && bs[i].action == Land)
      && (s.stop.Some? ==> s.stop == Some(Landed))
    decreases |bs|
  {
    if bs != [] {
      assert NoGatedFlip(bs[1..]) by {
        forall i | 0 <= i < |bs[1..]| ensures bs[1..][i].action != GatedFlip {
          assert bs[1..][i] == bs[i + 1];
        }
      }
      var s0 := Perform(p, peer, w, bs[0]);
      if bs[0].key !in keys {
        PressedStopsIffLand(p, peer, w, bs[1..], keys);
        ShiftLand(bs, keys);
      } else if bs[0].action.Land? {
        assert bs[0].key in keys && bs[0].action == Land;
      } else {
        assert bs[0].action != GatedFlip;
        PressedStopsIffLand(p, peer, s0.after, bs[1..], keys);
        ShiftLand(bs, keys);
      }
    }
  }

  /** Independent `if`s over plain sends followed by one land branch: the
      cycle ends the loop exactly when the land key is held, and then as
      landed. */
  lemma EveryPressedStopsIffLandKey(p: Profile, peer: Addr, w: Wire, keys: set<Key>, front: seq<Binding>, last: Binding)
    requires p.dispatch == EveryPressed && p.bindings == front + [last] && last.action == Land
    requires forall j :: 0 <= j < |front| ==> front[j].action.Send?
    ensures var s := Cycle(p, peer, w, keys);
      && (s.stop.Some? <==> last.key in keys)
      && (s.stop.Some? ==> s.stop == Some(Landed))
  {
    var bs := p.bindings;
    forall j | 0 <= j < |bs| ensures bs[j].action != GatedFlip && (bs[j].action == Land ==> j == |front|) {
      if j < |front| { assert bs[j] == front[j]; }
    }
    PressedStopsIffLand(p, peer, w, bs, keys);
    if last.key in keys {
      assert bs[|front|] == last;
    }
  }

  /** How many times each command of a `DeliverAll` is sent. */
  function DeliverCounts(p: Profile, peer: Addr, w: Wire, cmds: seq<string>): (c: seq<nat>)
    ensures |c| == |cmds|
    decreases |cmds|
  {
    if cmds == [] then []
    else
      var w1 := Deliver(p, peer, w, cmds[0]);
      [|w1.sent| - |w.sent|] + DeliverCounts(p, peer, w1, cmds[1..])
  }

  /** Commands delivered one after another are each on the wire in order,
      as often as the delivery sent it. */
  lemma {:induction false} DeliverAllSent(p: Profile, peer: Addr, w: Wire, cmds: seq<string>)
    ensures DeliverAll(p, peer, w, cmds).sent == w.sent + Expand(cmds, DeliverCounts(p, peer, w, cmds))
    decreases |cmds|
  {
    if cmds != [] {
      var w1 := Deliver(p, peer, w, cmds[0]);
      DeliverAllSent(p, peer, w1, cmds[1..]);
      var counts := DeliverCounts(p, peer, w, cmds);
      assert counts[1..] == DeliverCounts(p, peer, w1, cmds[1..]);
    }
  }

  /** Each command is sent at most as often as the delivery allows and, when
      the delivery always sends, at least once. */
  lemma {:induction false} DeliverCountsBounded(p: Profile, peer: Addr, w: Wire, cmds: seq<string>)
    ensures forall i :: 0 <= i < |cmds| ==> DeliverCounts(p, peer, w, cmds)[i] <= MostSends(p.delivery)
    ensures SendsAtLeastOnce(p.delivery) ==> forall i :: 0 <= i < |cmds| ==> DeliverCounts(p, peer, w, cmds)[i] >= 1
    decreases |cmds|
  {
    if cmds != [] {
      var w1 := Deliver(p, peer, w, cmds[0]);
      DeliverCountsBounded(p, peer, w1, cmds[1..]);
      var rest := DeliverCounts(p, peer, w1, cmds[1..]);
      var counts := DeliverCounts(p, peer, w, cmds);
      forall i | 1 <= i < |cmds| ensures counts[i] == rest[i - 1] {
      }
    }
  }

  /** With `FirstMatch`, a cycle whose chosen branch is a scenario on the
      retry path flies `execute_flight_path` and goes on. */
  lemma ScenarioCycle(p: Profile, peer: Addr, w: Wire, keys: set<Key>, i: nat)
    requires p.dispatch == FirstMatch && p.delivery.Retried?
    requires FirstPressed(p.bindings, keys) == Some(i) && p.bindings[i].action.Scenario?
    ensures var s := Cycle(p, peer, w, keys);
      && s.stop == None
      && s.after.sent == FlightPath(p.receiver, peer, w, p.bindings[i].action.cmds,
                                    p.delivery.retries, p.delivery.delay).sent
  {
    ScenarioIsFlightPath(p, peer, w, p.bindings[i].action.cmds);
  }

  /** A loop whose bindings have no battery-gated flip never crashes. */
  lemma {:induction false} FlyNeverCrashes(p: Profile, peer: Addr, w: Wire, polls: seq<Poll>)
    requires NoGatedFlip(p.bindings)
    ensures Fly(p, peer, w, polls).end != Crashed
    decreases |polls|
  {
    if polls != [] && polls[0].Interrupt? && p.onCtrlC == Unseen {
      FlyNeverCrashes(p, peer, w, polls[1..]);
    } else if polls != [] && polls[0].Pressed? {
      var s := Cycle(p, peer, w, polls[0].keys);
      if s.stop.Some? {
        match p.dispatch {
          case FirstMatch =>
            var i := FirstPressed(p.bindings, polls[0].keys);
            assert p.bindings[i.value].action != GatedFlip;
          case EveryPressed =>
            PressedStopsIffLand(p, peer, w, p.bindings, polls[0].keys);
        }
      } else {
        FlyNeverCrashes(p, peer, s.after, polls[1..]);
      }
    }
  }

  /** A loop that never sees Ctrl+C ends only by a branch: never as
      interrupted. */
  lemma {:induction false} FlyNeverInterrupted(p: Profile, peer: Addr, w: Wire, polls: seq<Poll>)
    requires p.onCtrlC == Unseen
    ensures Fly(p, peer, w, polls).end != Interrupted
    decreases |polls|
  {
    if polls != [] {
      if polls[0].Interrupt? {
        FlyNeverInterrupted(p, peer, w, polls[1..]);
      } else {
        var s := Cycle(p, peer, w, polls[0].keys);
        if s.stop.None? {
          FlyNeverInterrupted(p, peer, s.after, polls[1..]);
        }
      }
    }
  }

  /** A scenario on the retry path is `execute_flight_path`. */
  lemma {:induction false} ScenarioIsFlightPath(p: Profile, peer: Addr, w: Wire, cmds: seq<string>)
    requires p.delivery.Retried?
    ensures DeliverAll(p, peer, w, cmds)
      == FlightPath(p.receiver, peer, w, cmds, p.delivery.retries, p.delivery.delay)
    decreases |cmds|
  {
    if cmds != [] {
      ScenarioIsFlightPath(p, peer, Deliver(p, peer, w, cmds[0]), cmds[1..]);
    }
  }

  /** A pressed land binding beyond the head is one in the tail. */
  lemma ShiftLand(bs: seq<Binding>, keys: set<Key>)
    requires bs != [] && !(bs[0].key in keys && bs[0].action == Land)
    ensures (exists i :: 0 <= i < |bs| && bs[i].key in keys && bs[i].action == Land)
      <==> (exists i :: 0 <= i < |bs[1..]| && bs[1..][i].key in keys && bs[1..][i].action == Land)
  {
    if exists i :: 0 <= i < |bs| && bs[i].key in keys && bs[i].action == Land {
      var i :| 0 <= i < |bs| && bs[i].key in keys && bs[i].action == Land;
      assert bs[1..][i - 1] == bs[i];
    }
    if exists i :: 0 <= i < |bs[1..]| && bs[1..][i].key in keys && bs[1..][i].action == Land {
      var i :| 0 <= i < |bs[1..]| && bs[1..][i].key in keys && bs[1..][i].action == Land;
      assert bs[i + 1] == bs[1..][i];
    }
  }

  /** An ordinary command on a link. */
  method DeliverOn(link: Link, p: Profile, cmd: string)
    modifies link
    ensures link.State() == Deliver(p, link.peer, old(link.State()), cmd)
  {
    match p.delivery {
      case Retried(n, d) =>
        var _ := SendWithRetry(link, p.receiver, cmd, n, d);
      case Once =>
        var _ := link.SendCommand(p.receiver, cmd);
      case Tries(n) =>
        var _ := SendAttempts(link, p.receiver, cmd, n);
    }
  }

  /** Several commands on a link, in order. */
  method DeliverAllOn(link: Link, p: Profile, cmds: seq<string>)
    modifies link
    ensures link.State() == DeliverAll(p, link.peer, old(link.State()), cmds)
  {
    for i := 0 to |cmds|
      invariant DeliverAll(p, link.peer, link.State(), cmds[i..]) == DeliverAll(p, link.peer, old(link.State()), cmds)
    {
      assert cmds[i..][1..] == cmds[i + 1..];
      DeliverOn(link, p, cmds[i]);
    }
  }

  /** One branch on a link. */
  method PerformOn(link: Link, p: Profile, b: Binding) returns (stop: Option<LoopEnd>)
    modifies link
    ensures Step(stop, link.State()) == Perform(p, link.peer, old(link.State()), b)
  {
    match b.action {
      case Send(cmd) =>
        DeliverOn(link, p, cmd);
        link.Pause(b.pause);
        stop := None;
      case Query(cmd) =>
        var _ := link.SendCommand(p.receiver, cmd);
        link.Pause(b.pause);
        stop := None;
      case GatedFlip =>
        var reply := link.SendCommand(p.receiver, "battery?");
        var g := FlipGate(reply);
        if g == Raised {
          stop := Some(Crashed);
        } else {
          if g == Passed {
            DeliverOn(link, p, "flip f");
          }
          link.Pause(b.pause);
          stop := None;
        }
      case Scenario(cmds) =>
        DeliverAllOn(link, p, cmds);
        link.Pause(b.pause);
        stop := None;
      case Land =>
        DeliverOn(link, p, "land");
        stop := Some(Landed);
    }
  }

  /** One pass of the loop body on a link. */
  method CycleOn(link: Link, p: Profile, keys: set<Key>) returns (stop: Option<LoopEnd>)
    modifies link
    ensures Step(stop, link.State()) == Cycle(p, link.peer, old(link.State()), keys)
  {
    stop := None;
    match p.dispatch {
      case FirstMatch =>
        var i := FirstPressed(p.bindings, keys);
        if i.Some? {
          stop := PerformOn(link, p, p.bindings[i.value]);
        }
      case EveryPressed =>
        var j := 0;
        while j < |p.bindings| && stop.None?
          invariant 0 <= j <= |p.bindings|
          invariant stop.None? ==>
            PerformPressed(p, link.peer, link.State(), p.bindings[j..], keys)
              == PerformPressed(p, link.peer, old(link.State()), p.bindings, keys)
          invariant stop.Some? ==>
            Step(stop, link.State()) == PerformPressed(p, link.peer, old(link.State()), p.bindings, keys)
          decreases |p.bindings| - j
        {
          assert p.bindings[j..][1..] == p.bindings[j + 1..];
          if p.bindings[j].key in keys {
            stop := PerformOn(link, p, p.bindings[j]);
          }
          j := j + 1;
        }
    }
    if stop.None? {
      link.Pause(p.poll);
    }
  }

  /** The whole loop on a link. */
  method FlyByKeys(link: Link, p: Profile, polls: seq<Poll>) returns (end: LoopEnd)
    modifies link
    ensures Flight(end, link.State()) == Fly(p, link.peer, old(link.State()), polls)
  {
    var i := 0;
    while i < |polls|
      invariant 0 <= i <= |polls|
      invariant Fly(p, link.peer, link.State(), polls[i..]) == Fly(p, link.peer, old(link.State()), polls)
      decreases |polls| - i
    {
      assert polls[i..][1..] == polls[i + 1..];
      match polls[i] {
        case Interrupt =>
          match p.onCtrlC {
            case Caught =>
              DeliverOn(link, p, "land");
              return Interrupted;
            case Fatal =>
              return Interrupted;
            case Unseen =>
          }
        case Pressed(keys) =>
          var stop := CycleOn(link, p, keys);
          if stop.Some? {
            return stop.value;
          }
      }
      i := i + 1;
    }
    return Unfinished;
  }
}
