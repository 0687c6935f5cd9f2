/** RoiNew.py: the drones found are flown strictly one after another, each
    on a socket of its own, closed at the end of its turn. A turn is the
    chain `command` → battery → `takeoff` → `flip f` → `up 30` → battery,
    with no `land` anywhere; its `except` reads the battery once more. */
module RoiNew {
  import opened Wrappers
  import opened Transport
  import opened Reliable
  import opened Readings
  import opened Chains

  /** The retried steps after the battery check. */
  const Steps: seq<string> := ["takeoff", "flip f", "up 30"]

  /** Everything a turn can send. */
  const Commands := {"command", "battery?", "takeoff", "flip f", "up 30"}

  /** One drone as found: its address and what its socket will receive. */
  datatype Drone = Drone(peer: Addr, inbox: seq<Datagram>, clock: int)

  /** The socket `main` creates for a drone. */
  function Fresh(d: Drone): (w: Wire)
    ensures w.open && w.sent == []
    ensures w.inbox == d.inbox && w.clock == d.clock
  {
    Wire(d.inbox, d.clock, [], true)
  }

  /** The single-query `battery_check`: only `ValueError` is caught. */
  function Check(peer: Addr, w: Wire): (c: Checked)
    ensures c.after.sent == w.sent + ["battery?"] && c.after.open == w.open
  {
    var h := Exchange(Blocking, peer, w, "battery?");
    Checked(BatteryStrict(h.reply), h.after)
  }

  /** The `except` branch: one more battery check, whose exception escapes. */
  function Handler(peer: Addr, w: Wire): (f: Flown)
    ensures f.end == Handled || f.end == Escaped
    ensures f.after.sent == w.sent + ["battery?"] && f.after.open == w.open
  {
    var c := Check(peer, w);
    Flown(if c.gate == Raised then Escaped else Handled, c.after)
  }

  /** The closing battery check after the chain. */
  function Finish(peer: Addr, w: Wire): (f: Flown)
    ensures f.after.open == w.open
  {
    var last := Check(peer, w);
    if last.gate == Raised then Handler(peer, last.after) else Flown(Finished, last.after)
  }

  /** The retried steps, then the closing battery check. */
  function Flight(peer: Addr, w: Wire): (f: Flown)
    ensures f.after.open == w.open
  {
    var c := Chain(Blocking, peer, w, Steps, 3, 0);
    if c.done < |Steps| then Flown(Declined(Steps[c.done]), c.after) else Finish(peer, c.after)
  }

  /** The `try` body of one turn. */
  function Turn(peer: Addr, w: Wire): (f: Flown)
    ensures f.after.open == w.open
  {
    var h := Exchange(Blocking, peer, w, "command");
    if !Truthy(h.reply) then Flown(Declined("command"), h.after)
    else
      var bat := Check(peer, h.after);
      match bat.gate
      case Raised => Handler(peer, bat.after)
      case Refused => Flown(Declined("battery?"), bat.after)
      case Passed => Flight(peer, bat.after)
  }

  /** One drone's turn, then `socket_udp.close()`, which an escaping
      exception skips. */
  function Visit(peer: Addr, w: Wire): (f: Flown)
    ensures f.end == Escaped ==> f.after.open == w.open
    ensures f.end != Escaped ==> !f.after.open
    ensures f.after.sent == Turn(peer, w).after.sent
  {
    var f := Turn(peer, w);
    if f.end == Escaped then f else Flown(f.end, f.after.(open := false))
  }

  lemma FinishSendsOnly(peer: Addr, w: Wire)
    ensures SendsOnly(w, Finish(peer, w).after, {"battery?"})
  {
    var last := Check(peer, w);
    RepeatSendsOnly(w, last.after, "battery?");
    if last.gate == Raised {
      var f := Handler(peer, last.after);
      RepeatSendsOnly(last.after, f.after, "battery?");
      SendsOnlyThen(w, last.after, f.after, {"battery?"}, {"battery?"});
    }
  }

  lemma FlightSendsOnly(peer: Addr, w: Wire)
    ensures SendsOnly(w, Flight(peer, w).after, Commands)
  {
    var c := Chain(Blocking, peer, w, Steps, 3, 0);
    assert SendsOnly(w, c.after, Commands) by {
      forall s | s in c.after.sent[|w.sent|..] ensures s in Commands {
        assert s in Steps;
      }
    }
    if c.done == |Steps| {
      FinishSendsOnly(peer, c.after);
      SendsOnlyThen(w, c.after, Finish(peer, c.after).after, Commands, {"battery?"});
    }
  }

  /** A turn sends only the checks and the chain's steps. */
  lemma TurnSendsOnly(peer: Addr, w: Wire)
    ensures SendsOnly(w, Visit(peer, w).after, Commands)
  {
    var h := Exchange(Blocking, peer, w, "command");
    RepeatSendsOnly(w, h.after, "command");
    if Truthy(h.reply) {
      var bat := Check(peer, h.after);
      RepeatSendsOnly(h.after, bat.after, "battery?");
      SendsOnlyThen(w, h.after, bat.after, {"command"}, {"battery?"});
      if bat.gate == Raised {
        var f := Handler(peer, bat.after);
        RepeatSendsOnly(bat.after, f.after, "battery?");
        SendsOnlyThen(w, bat.after, f.after, {"command", "battery?"}, {"battery?"});
      } else if bat.gate == Passed {
        FlightSendsOnly(peer, bat.after);
        SendsOnlyThen(w, bat.after, Flight(peer, bat.after).after, {"command", "battery?"}, Commands);
      }
    }
  }

  /** A failed receive spoils only its own exchange: when the battery
      reading fails, the `except` reads it again, the exception is handled
      on any reply, and the socket is closed, so the tour goes on. */
  lemma RecoversFromFailedReceive(peer: Addr, w: Wire)
    requires |w.inbox| >= 3
    requires !w.inbox[0].fails && w.inbox[0].payload != ""
    requires w.inbox[1].fails && !w.inbox[2].fails
    ensures Visit(peer, w).end == Handled && !Visit(peer, w).after.open
  {
    var h := Exchange(Blocking, peer, w, "command");
    assert h.after.inbox == w.inbox[1..];
    var bat := Check(peer, h.after);
    assert bat.gate == Raised && bat.after.inbox == w.inbox[2..];
    assert Handler(peer, bat.after).end == Handled;
  }

  /** Hence no turn ever sends `land`: the script leaves every drone it
      launched in the air. */
  lemma NeverLands(peer: Addr, w: Wire)
    ensures "land" !in Visit(peer, w).after.sent[|w.sent|..]
  {
    TurnSendsOnly(peer, w);
    assert "land" !in Commands;
  }

  /** One drone's turn on its fresh socket. */
  function VisitFresh(d: Drone): Flown {
    Visit(d.peer, Fresh(d))
  }

  /** Turns one drone after another until one ends by an escaping exception. */
  function Visits(drones: seq<Drone>, visit: Drone -> Flown): (runs: seq<Flown>)
    ensures |runs| <= |drones| && (drones != [] ==> runs != [])
    decreases |drones|
  {
    if drones == [] then []
    else
      var f := visit(drones[0]);
      if f.end == Escaped then [f] else [f] + Visits(drones[1..], visit)
  }

  /** `main`'s loop: every drone in the order found, each on a fresh socket,
      until an exception escapes a turn and ends the program. */
  function Tour(drones: seq<Drone>): (runs: seq<Flown>)
    ensures |runs| <= |drones| && (drones != [] ==> runs != [])
  {
    Visits(drones, VisitFresh)
  }

  /** The turns are taken in order, turn `i` being drone `i`'s, and stop
      early exactly after the first turn whose exception escaped. */
  lemma {:induction false} VisitsInOrder(drones: seq<Drone>, visit: Drone -> Flown)
    ensures var runs := Visits(drones, visit);
      && |runs| <= |drones| && (drones != [] ==> runs != [])
      && (forall i :: 0 <= i < |runs| ==> runs[i] == visit(drones[i]))
      && (forall i :: 0 <= i < |runs| - 1 ==> runs[i].end != Escaped)
      && (|runs| < |drones| ==> runs[|runs| - 1].end == Escaped)
    decreases |drones|
  {
    if drones != [] && visit(drones[0]).end != Escaped {
      VisitsInOrder(drones[1..], visit);
      var rest := Visits(drones[1..], visit);
      forall i | 1 <= i < |rest| + 1
        ensures Visits(drones, visit)[i] == rest[i - 1] && drones[i] == drones[1..][i - 1]
      {
      }
    }
  }

  /** One turn of the tour. */
  lemma VisitsStep(drones: seq<Drone>, visit: Drone -> Flown)
    requires drones != []
    ensures Visits(drones, visit)
      == if visit(drones[0]).end == Escaped then [visit(drones[0])] else [visit(drones[0])] + Visits(drones[1..], visit)
  {
  }

  /** The tour of RoiNew.py in those terms. */
  lemma TourInOrder(drones: seq<Drone>)
    ensures var runs := Tour(drones);
      && |runs| <= |drones| && (drones != [] ==> runs != [])
      && (forall i :: 0 <= i < |runs| ==> runs[i] == VisitFresh(drones[i]))
      && (forall i :: 0 <= i < |runs| - 1 ==> runs[i].end != Escaped)
      && (|runs| < |drones| ==> runs[|runs| - 1].end == Escaped)
  {
    VisitsInOrder(drones, VisitFresh);
  }

  /** One turn on a link. */
  method VisitOn(link: Link) returns (end: Ending)
    modifies link
    ensures Flown(end, link.State()) == Visit(link.peer, old(link.State()))
  {
    var resp := link.SendCommand(Blocking, "command");
    if !Truthy(resp) {
      end := Declined("command");
    } else {
      resp := link.SendCommand(Blocking, "battery?");
      var g := BatteryStrict(resp);
      if g == Refused {
        end := Declined("battery?");
      } else if g == Passed {
        var done := ChainOn(link, Blocking, Steps, 3, 0);
        if done < |Steps| {
          end := Declined(Steps[done]);
        } else {
          resp := link.SendCommand(Blocking, "battery?");
          g := BatteryStrict(resp);
          end := Finished;
        }
      }
      if g == Raised {
        resp := link.SendCommand(Blocking, "battery?");
        end := if BatteryStrict(resp) == Raised then Escaped else Handled;
      }
    }
    if end != Escaped {
      link.Close();
    }
  }

  /** `main` over the drones found. */
  method RunTour(drones: seq<Drone>) returns (runs: seq<Flown>)
    ensures runs == Tour(drones)
  {
    runs := [];
    var i := 0;
    while i < |drones|
      invariant 0 <= i <= |drones|
      invariant runs + Tour(drones[i..]) == Tour(drones)
      decreases |drones| - i
    {
      assert drones[i..][1..] == drones[i + 1..];
      var link := new Link(drones[i].peer, drones[i].inbox, drones[i].clock);
      var end := VisitOn(link);
      assert Flown(end, link.State()) == VisitFresh(drones[i]);
      VisitsStep(drones[i..], VisitFresh);
      runs := runs + [Flown(end, link.State())];
      if end == Escaped {
        assert runs == Tour(drones);
        return;
      }
      i := i + 1;
    }
  }
}
