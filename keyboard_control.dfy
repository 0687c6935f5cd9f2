/** KeyboardControl.py: `send_command` itself makes two attempts on a fresh
    socket, `unactive` counting as no reply; the startup sends `command`,
    `battery?` and `takeoff` whatever they return; the arrow keys are
    independent `if`s with half a second after each move. The loop is a task
    under `asyncio.run`, so a Ctrl+C while it waits for its next poll never
    reaches its `except KeyboardInterrupt`. */
module KeyboardControl {
  import opened Wrappers
  import opened Transport
  import opened Reliable
  import opened Keys
  import opened KeyLoop

  /** `send_command`: two attempts, any datagram within 5 s, unstripped; a
      Ctrl+C ends the task. */
  const Controls := Profile(AnySource(ReplyTimeout, false), Tries(2), EveryPressed,
    Arrows + [Binding(Down, Land, 0)], 100, Fatal)

  /** The branches before the land branch. */
  const Arrows: seq<Binding> := [
    Binding(Left, Send("forward 100"), 500), Binding(Right, Send("back 100"), 500),
    Binding(Up, Send("flip f"), 500)]

  /** The startup commands, sent in order whatever the replies. */
  const StartupCommands: seq<string> := ["command", "battery?", "takeoff"]

  /** Startup and key loop: `command` is the first command sent, and the
      loop only adds to what the startup sent. */
  function Session(peer: Addr, w: Wire, polls: seq<Poll>): (f: Flight)
    ensures w.sent + ["command"] <= f.after.sent
    ensures DeliverAll(Controls, peer, w, StartupCommands).sent <= f.after.sent
  {
    Fly(Controls, peer, DeliverAll(Controls, peer, w, StartupCommands), polls)
  }

  /** The startup sends each of its commands, in order, once or twice: the
      battery is read but never decides anything, and `takeoff` always goes
      out. */
  lemma StartupSendsAll(peer: Addr, w: Wire)
    ensures var counts := DeliverCounts(Controls, peer, w, StartupCommands);
      && DeliverAll(Controls, peer, w, StartupCommands).sent == w.sent + Expand(StartupCommands, counts)
      && forall i :: 0 <= i < |StartupCommands| ==> 1 <= counts[i] <= 2
  {
    DeliverAllSent(Controls, peer, w, StartupCommands);
    DeliverCountsBounded(Controls, peer, w, StartupCommands);
  }

  /** The loop ends exactly when the down arrow is held, and then as landed. */
  lemma StopsIffDown(peer: Addr, w: Wire, keys: set<Key>)
    ensures var s := Cycle(Controls, peer, w, keys);
      && (s.stop.Some? <==> Down in keys)
      && (s.stop.Some? ==> s.stop == Some(Landed))
  {
    EveryPressedStopsIffLandKey(Controls, peer, w, keys, Arrows, Binding(Down, Land, 0));
  }

  /** Ctrl+C as written: between two polls the task is waiting in
      `asyncio.sleep`, where the interrupt arrives as the task's cancellation
      (or in the event loop, which then cancels it), so the loop ends and no
      `land` is sent. */
  lemma CtrlCCancels(peer: Addr, w: Wire, polls: seq<Poll>)
    requires Fly(Controls, peer, w, polls).end == Unfinished
    ensures Fly(Controls, peer, w, polls + [Interrupt]) == Flight(Interrupted, Fly(Controls, peer, w, polls).after)
  {
    CtrlCEndsSilently(Controls, peer, w, polls);
  }

  /** Ctrl+C as the handler intends it: were the interrupt raised inside the
      coroutine, `land` would be sent, once or twice, and the loop would stop. */
  lemma HandledCtrlCLands(peer: Addr, w: Wire, polls: seq<Poll>)
    requires Fly(Controls.(onCtrlC := Caught), peer, w, polls).end == Unfinished
    ensures var p := Controls.(onCtrlC := Caught);
      var before := Fly(p, peer, w, polls).after;
      var f := Fly(p, peer, w, polls + [Interrupt]);
      && f.end == Interrupted
      && |before.sent| + 1 <= |f.after.sent| <= |before.sent| + 2
      && f.after.sent == before.sent + Repeat("land", |f.after.sent| - |before.sent|)
  {
    CtrlCLands(Controls.(onCtrlC := Caught), peer, w, polls);
  }

  /** `control_drone(ip)` on a link. */
  method ControlDrone(link: Link, polls: seq<Poll>) returns (end: LoopEnd)
    modifies link
    ensures Flight(end, link.State()) == Session(link.peer, old(link.State()), polls)
  {
    DeliverAllOn(link, Controls, StartupCommands);
    end := FlyByKeys(link, Controls, polls);
  }
}
