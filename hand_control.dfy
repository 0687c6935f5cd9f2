/** HandControl2.py: a fresh socket for every `send_command`, no retries, no
    battery check, and independent `if`s for the keys, so several keys held
    together each send their command in one pass. Ctrl+C is not caught. One
    drone is flown in the main thread; several each in a non-daemon thread. */
module HandControl {
  import opened Wrappers
  import opened Transport
  import opened Keys
  import opened KeyLoop

  /** `send_command(cmd, addr)`: any datagram within 5 s, decoded, unstripped. */
  const Fresh := AnySource(ReplyTimeout, false)

  /** The takeoff's `timeout=10`. */
  const TakeoffWait := AnySource(10000, false)

  /** The key chain: the movements, the flip on space, land on `l`. */
  const Front: seq<Binding> := Moves + [Binding(Space, Send("flip f"), 0)]

  /** The key loop of a single drone, in the main thread. */
  const Controls := Profile(Fresh, Once, EveryPressed, Front + [Binding(L, Land, 0)], 100, Fatal)

  /** The key loop of each of several drones, in its own non-daemon thread. */
  const Workers := Controls.(onCtrlC := Unseen)

  /** `command`, two seconds, `takeoff` awaited up to 10 s, three seconds,
      then the 50 cm climb; no reply is looked at. */
  function Startup(peer: Addr, w: Wire): (w': Wire)
    ensures w'.sent == w.sent + ["command", "takeoff", "up 50"]
    ensures w'.clock >= w.clock + 5000 && w'.open == w.open
  {
    var w1 := Sleep(Exchange(Fresh, peer, w, "command").after, 2000);
    var w2 := Sleep(Exchange(TakeoffWait, peer, w1, "takeoff").after, 3000);
    Exchange(Fresh, peer, w2, "up 50").after
  }

  /** Launch and key loop: the three startup commands come first, whatever
      the loop does. */
  function Session(peer: Addr, w: Wire, polls: seq<Poll>): (f: Flight)
    ensures w.sent + ["command", "takeoff", "up 50"] <= f.after.sent
  {
    Fly(Controls, peer, Startup(peer, w), polls)
  }

  /** The drone is told to take off whatever it answers, even when it never
      answers: the startup sends the same three commands for every inbox. */
  lemma TakeoffUnconditional(peer: Addr, w: Wire, v: Wire)
    requires w.sent == v.sent
    ensures Startup(peer, w).sent == Startup(peer, v).sent
    ensures Startup(peer, w).sent[|w.sent| + 1] == "takeoff"
  {
  }

  /** A pass of the loop sends the command of every held key, once each, in
      the chain's order, up to `land`. */
  lemma CycleSendsEveryPressed(peer: Addr, w: Wire, keys: set<Key>)
    ensures Cycle(Controls, peer, w, keys).after.sent == w.sent + PressedCommands(Controls.bindings, keys)
  {
    assert PlainActions(Controls.bindings) by {
      assert forall i :: 0 <= i < |Moves| ==> Moves[i].action.Send?;
      forall i | 0 <= i < |Controls.bindings|
        ensures Controls.bindings[i].action.Send? || Controls.bindings[i].action.Land? || Controls.bindings[i].action.Query?
      {
      }
    }
    PressedInOrder(Controls, peer, w, Controls.bindings, keys);
  }

  /** The loop ends exactly when `l` is held, and then as landed. */
  lemma StopsIffL(peer: Addr, w: Wire, keys: set<Key>)
    ensures var s := Cycle(Controls, peer, w, keys);
      && (s.stop.Some? <==> L in keys)
      && (s.stop.Some? ==> s.stop == Some(Landed))
  {
    assert forall i :: 0 <= i < |Moves| ==> Moves[i].action.Send?;
    assert forall j :: 0 <= j < |Front| ==> Front[j].action.Send? by {
      forall j | 0 <= j < |Front| ensures Front[j].action.Send? {
        if j < |Moves| { assert Front[j] == Moves[j]; }
      }
    }
    EveryPressedStopsIffLandKey(Controls, peer, w, keys, Front, Binding(L, Land, 0));
  }

  /** Ctrl+C is not caught: the loop stops with the drone still in the air,
      sending nothing more. */
  lemma CtrlCLeavesDroneFlying(peer: Addr, w: Wire, polls: seq<Poll>)
    requires Fly(Controls, peer, w, polls).end == Unfinished
    ensures Fly(Controls, peer, w, polls + [Interrupt]) == Flight(Interrupted, Fly(Controls, peer, w, polls).after)
  {
    CtrlCEndsSilently(Controls, peer, w, polls);
  }

  /** With several drones the main thread, waiting in `join`, gets the Ctrl+C
      and the threads flying the drones go on polling as if nothing had
      happened. */
  lemma WorkersIgnoreCtrlC(peer: Addr, w: Wire, polls: seq<Poll>, more: seq<Poll>)
    ensures Fly(Workers, peer, w, polls + [Interrupt] + more) == Fly(Workers, peer, w, polls + more)
  {
    CtrlCUnseen(Workers, peer, w, polls, more);
  }

  /** `control_drone(ip)` on a link. */
  method ControlDrone(link: Link, polls: seq<Poll>) returns (end: LoopEnd)
    modifies link
    ensures Flight(end, link.State()) == Session(link.peer, old(link.State()), polls)
  {
    var _ := link.SendCommand(Fresh, "command");
    link.Pause(2000);
    var _ := link.SendCommand(TakeoffWait, "takeoff");
    link.Pause(3000);
    var _ := link.SendCommand(Fresh, "up 50");
    end := FlyByKeys(link, Controls, polls);
  }
}
