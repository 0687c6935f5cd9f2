/** One drone's UDP command socket with the network replaced by a script.

    The datagrams that will reach the local socket are listed in advance, each
    with its sender and its arrival time on an abstract clock in milliseconds;
    sleeping and waiting move the clock; every command sent is logged. The
    three ways the scripts wait for a reply (`send_command` in its variants)
    are the three `Receiver`s. */
module Transport {
  import opened Wrappers
  import opened Text

  /** A host and port: Python's `(ip, port)` address tuple. */
  datatype Addr = Addr(ip: string, port: int)

  /** One datagram reaching the local socket: who sent it, its decoded text,
      the time (ms) it arrives, and whether receiving it raises inside
      `send_command` (bytes that are not UTF-8, or a socket error reported on
      that receive) instead of yielding the text. */
  datatype Datagram = Datagram(src: Addr, payload: string, at: int, fails: bool)

  /** The socket as a value: the datagrams still to arrive, in arrival order,
      the current time, every command sent so far and whether the socket is open. */
  datatype Wire = Wire(inbox: seq<Datagram>, clock: int, sent: seq<string>, open: bool)

  /** How a `send_command` waits for its reply.
      - `Matching`: tello_multi_height_sync.py and tello_multi_height_sync2.py;
        accept only the drone's own datagrams before a fixed deadline, strip.
      - `AnySource`: the shared-socket scripts; the first datagram from anyone
        before the timeout, stripped or not.
      - `Blocking`: a socket with no timeout, first datagram from anyone, raw. */
  datatype Receiver =
    | Matching(timeout: nat)
    | AnySource(timeout: nat, strip: bool)
    | Blocking

  /** What one exchange yields: the reply and the socket afterwards. The
      reply is `None` when `send_command` returns `None`: on a timeout, on a
      failed receive its `except Exception` catches, and, for a socket with
      no timeout, when no datagram is left to arrive. */
  datatype Heard = Heard(reply: Option<string>, after: Wire)

  /** The default `timeout: float = 5` of every `send_command`, in ms. */
  const ReplyTimeout: nat := 5000

  function Max(a: int, b: int): int {
    if a < b then b else a
  }

  /** `time.sleep(ms / 1000)`. */
  function Sleep(w: Wire, ms: nat): (r: Wire)
    ensures r.inbox == w.inbox && r.sent == w.sent && r.open == w.open
    ensures r.clock == w.clock + ms
  {
    w.(clock := w.clock + ms)
  }

  /** Receives the datagram at the head of the inbox; a failed receive is
      caught and gives `None`. */
  function Take(w: Wire, strip: bool): (h: Heard)
    requires w.inbox != []
    ensures h.reply.Some? <==> !w.inbox[0].fails
    ensures h.after.inbox == w.inbox[1..]
    ensures !strip && !w.inbox[0].fails ==> h.reply.value == w.inbox[0].payload
    ensures h.after.sent == w.sent && h.after.open == w.open
    ensures h.after.clock == w.clock || h.after.clock == w.inbox[0].at
    ensures w.clock <= h.after.clock && w.inbox[0].at <= h.after.clock
  {
    var d := w.inbox[0];
    Heard(if d.fails then None else Some(if strip then Strip(d.payload) else d.payload),
          w.(inbox := w.inbox[1..], clock := Max(w.clock, d.at)))
  }

  /** The receive loop of tello_multi_height_sync.py:43-51: datagrams from other
      hosts are dropped and the wait goes on against the same deadline. Only
      `socket.timeout` is caught there, so a failed receive would end the
      session; `fails` is not read here, and every datagram is taken to decode. */
  function AwaitPeer(peer: Addr, w: Wire, deadline: int): (h: Heard)
    ensures h.after.sent == w.sent && h.after.open == w.open
    ensures w.clock <= h.after.clock
    ensures w.clock <= deadline ==> h.after.clock <= deadline
    ensures w.clock <= deadline && h.reply.None? ==> h.after.clock == deadline
    decreases |w.inbox|
  {
    if w.clock >= deadline then Heard(None, w)
    else if w.inbox == [] || w.inbox[0].at >= deadline then Heard(None, w.(clock := deadline))
    else
      var d := w.inbox[0];
      var w' := w.(inbox := w.inbox[1..], clock := Max(w.clock, d.at));
      if d.src == peer then Heard(Some(Strip(d.payload)), w')
      else AwaitPeer(peer, w', deadline)
  }

  /** One `send_command(cmd)`: the command goes out as exactly one datagram,
      then the receiver waits for the reply. */
  function Exchange(r: Receiver, peer: Addr, w: Wire, cmd: string): (h: Heard)
    ensures h.after.sent == w.sent + [cmd] && h.after.open == w.open
    ensures w.clock <= h.after.clock
    ensures r.Matching? ==> h.after.clock <= w.clock + r.timeout
  {
    var w1 := w.(sent := w.sent + [cmd]);
    match r
    case Matching(timeout) => AwaitPeer(peer, w1, w.clock + timeout)
    case AnySource(timeout, strip) =>
      if w1.inbox != [] && w1.inbox[0].at < w1.clock + timeout then Take(w1, strip)
      else Heard(None, Sleep(w1, timeout))
    case Blocking =>
      if w1.inbox != [] then Take(w1, false) else Heard(None, w1)
  }

  /** `emergency_land`: a raw `land` datagram, no reply awaited. */
  function EmergencyLanding(w: Wire): (r: Wire)
    ensures r.sent == w.sent + ["land"] && r.inbox == w.inbox && r.clock == w.clock
  {
    w.(sent := w.sent + ["land"])
  }

  /** How many datagrams at the head of `inbox` arrive before `deadline`. */
  function Window(inbox: seq<Datagram>, deadline: int): (n: nat)
    ensures n <= |inbox|
    ensures forall j :: 0 <= j < n ==> inbox[j].at < deadline
    ensures n == |inbox| || inbox[n].at >= deadline
    decreases |inbox|
  {
    if inbox == [] || inbox[0].at >= deadline then 0 else 1 + Window(inbox[1..], deadline)
  }

  /** The source filter, first half: when the `i`-th datagram is the first from
      the drone and all up to it arrive in time, the reply is its stripped text,
      the datagrams before it are dropped, and those after it stay queued. */
  lemma {:induction false} AwaitPeerFinds(peer: Addr, w: Wire, deadline: int, i: nat)
    requires w.clock < deadline && i < |w.inbox|
    requires forall j :: 0 <= j <= i ==> w.inbox[j].at < deadline
    requires forall j :: 0 <= j < i ==> w.inbox[j].src != peer
    requires w.inbox[i].src == peer
    ensures var h := AwaitPeer(peer, w, deadline);
      h.reply == Some(Strip(w.inbox[i].payload)) && h.after.inbox == w.inbox[i + 1..]
      && h.after.clock < deadline
    decreases i
  {
    if i > 0 {
      var w' := w.(inbox := w.inbox[1..], clock := Max(w.clock, w.inbox[0].at));
      AwaitPeerFinds(peer, w', deadline, i - 1);
      assert w'.inbox[i..] == w.inbox[i + 1..];
    }
  }

  /** The source filter, second half: when none of the `n` datagrams that
      arrive before the deadline is from the drone, they are all dropped and
      the wait ends with no reply exactly at the deadline. */
  lemma {:induction false} AwaitPeerTimesOut(peer: Addr, w: Wire, deadline: int, n: nat)
    requires w.clock < deadline && n <= |w.inbox|
    requires forall j :: 0 <= j < n ==> w.inbox[j].at < deadline && w.inbox[j].src != peer
    requires n == |w.inbox| || w.inbox[n].at >= deadline
    ensures AwaitPeer(peer, w, deadline) == Heard(None, w.(inbox := w.inbox[n..], clock := deadline))
    decreases n
  {
    if n > 0 {
      var w' := w.(inbox := w.inbox[1..], clock := Max(w.clock, w.inbox[0].at));
      AwaitPeerTimesOut(peer, w', deadline, n - 1);
      assert w'.inbox[n - 1..] == w.inbox[n..];
    }
  }

  /** A flood of datagrams from other hosts is dropped and never extends the
      wait: the exchange yields no reply, exactly at its original deadline. */
  lemma SpoofedFloodIgnored(t: nat, peer: Addr, w: Wire, cmd: string)
    requires t > 0
    requires forall j :: 0 <= j < |w.inbox| ==> w.inbox[j].src != peer
    ensures var h := Exchange(Matching(t), peer, w, cmd);
      h.reply == None && h.after.clock == w.clock + t
      && h.after.inbox == w.inbox[Window(w.inbox, w.clock + t)..]
  {
    var w1 := w.(sent := w.sent + [cmd]);
    AwaitPeerTimesOut(peer, w1, w.clock + t, Window(w.inbox, w.clock + t));
  }

  /** On a shared unfiltered socket the first datagram to arrive is the reply,
      whoever sent it: cross-talk the source filter rules out. */
  lemma SharedSocketCrossTalk(t: nat, strip: bool, peer: Addr, w: Wire, cmd: string)
    requires w.inbox != [] && w.inbox[0].src != peer && w.inbox[0].at < w.clock + t
    ensures Exchange(AnySource(t, strip), peer, w, cmd).reply
      == if w.inbox[0].fails then None else Some(if strip then Strip(w.inbox[0].payload) else w.inbox[0].payload)
  {
  }

  /** The socket a drone session talks through. */
  class Link {
    const peer: Addr
    var inbox: seq<Datagram>
    var clock: int
    var sent: seq<string>
    var open: bool

    function State(): Wire
      reads this
    {
      Wire(inbox, clock, sent, open)
    }

    constructor (peer: Addr, inbox: seq<Datagram>, clock: int)
      ensures this.peer == peer && State() == Wire(inbox, clock, [], true)
    {
      this.peer := peer;
      this.inbox := inbox;
      this.clock := clock;
      this.sent := [];
      this.open := true;
    }

    /** `send_command(cmd)` in the variant `r`. */
    method SendCommand(r: Receiver, cmd: string) returns (reply: Option<string>)
      modifies this
      ensures Heard(reply, State()) == Exchange(r, peer, old(State()), cmd)
    {
      match r {
        case Matching(timeout) =>
          var deadline := clock + timeout;
          sent := sent + [cmd];
          ghost var start := State();
          while clock < deadline
            invariant AwaitPeer(peer, State(), deadline) == AwaitPeer(peer, start, deadline)
            decreases |inbox|
          {
            if inbox == [] || inbox[0].at >= deadline {
              clock := deadline;
              return None;
            }
            var d := inbox[0];
            inbox := inbox[1..];
            clock := Max(clock, d.at);
            if d.src == peer {
              return Some(Strip(d.payload));
            }
          }
          return None;
        case AnySource(timeout, strip) =>
          sent := sent + [cmd];
          if inbox != [] && inbox[0].at < clock + timeout {
            var d := inbox[0];
            inbox := inbox[1..];
            clock := Max(clock, d.at);
            reply := if d.fails then None else Some(if strip then Strip(d.payload) else d.payload);
          } else {
            clock := clock + timeout;
            reply := None;
          }
        case Blocking =>
          sent := sent + [cmd];
          if inbox != [] {
            var d := inbox[0];
            inbox := inbox[1..];
            clock := Max(clock, d.at);
            reply := if d.fails then None else Some(d.payload);
          } else {
            reply := None;
          }
      }
    }

    /** `time.sleep`. */
    method Pause(ms: nat)
      modifies this
      ensures State() == Sleep(old(State()), ms)
    {
      clock := clock + ms;
    }

    /** `emergency_land(socket_udp, addr)`. */
    method EmergencyLand()
      modifies this
      ensures State() == EmergencyLanding(old(State()))
    {
      sent := sent + ["land"];
    }

    /** `socket_udp.close()`. */
    method Close()
      modifies this
      ensures State() == old(State()).(open := false)
    {
      open := false;
    }
  }
}
