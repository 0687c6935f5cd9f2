/** The bounded-attempt layer on top of one exchange: `send_with_retry`, the
    attempt loop of KeyboardControl.py's `send_command`, and
    `execute_flight_path`. */
module Reliable {
  import opened Wrappers
  import opened Transport

  /** The only reply that counts as success. */
  const Ok := "ok"

  /** `n` copies of `cmd`: the log of `n` attempts at one command. */
  function Repeat(cmd: string, n: nat): (s: seq<string>)
    ensures |s| == n && forall i :: 0 <= i < n ==> s[i] == cmd
  {
    seq(n, _ => cmd)
  }

  /** What `send_with_retry` returns, with the socket afterwards. */
  datatype Outcome = Outcome(ok: bool, after: Wire)

  /** `send_with_retry(cmd, retries, delay)`: an attempt is one `send_command`;
      the first reply that is exactly `ok` ends it with True; every other reply,
      including none, is followed by a sleep of `delay` ms (0 for the variants
      that do not sleep); after `retries` failures it is False. */
  function Retry(r: Receiver, peer: Addr, w: Wire, cmd: string, retries: int, delay: nat): (o: Outcome)
    ensures |w.sent| <= |o.after.sent| <= |w.sent| + Max(retries, 0)
    ensures o.after.sent == w.sent + Repeat(cmd, |o.after.sent| - |w.sent|)
    ensures o.ok ==> |o.after.sent| > |w.sent|
    ensures !o.ok ==> |o.after.sent| == |w.sent| + Max(retries, 0)
    ensures o.after.open == w.open
    decreases retries
  {
    if retries <= 0 then Outcome(false, w)
    else
      var h := Exchange(r, peer, w, cmd);
      if h.reply == Some(Ok) then Outcome(true, h.after)
      else Retry(r, peer, Sleep(h.after, delay), cmd, retries - 1, delay)
  }

  /** The socket before attempt `k` (counting from 0) if every earlier attempt
      failed. */
  function BeforeAttempt(r: Receiver, peer: Addr, w: Wire, cmd: string, delay: nat, k: nat): Wire
    decreases k
  {
    if k == 0 then w
    else BeforeAttempt(r, peer, Sleep(Exchange(r, peer, w, cmd).after, delay), cmd, delay, k - 1)
  }

  /** The reply attempt `k` gets if every earlier attempt failed. */
  function ReplyAt(r: Receiver, peer: Addr, w: Wire, cmd: string, delay: nat, k: nat): Option<string> {
    Exchange(r, peer, BeforeAttempt(r, peer, w, cmd, delay, k), cmd).reply
  }

  /** Attempt `j + 1` from `w` is attempt `j` from the socket after a failed
      first attempt. */
  lemma AttemptShift(r: Receiver, peer: Addr, w: Wire, cmd: string, delay: nat, j: nat)
    ensures var w1 := Sleep(Exchange(r, peer, w, cmd).after, delay);
      BeforeAttempt(r, peer, w, cmd, delay, j + 1) == BeforeAttempt(r, peer, w1, cmd, delay, j)
      && ReplyAt(r, peer, w, cmd, delay, j + 1) == ReplyAt(r, peer, w1, cmd, delay, j)
  {
  }

  /** No `ok` in the first `n` attempts leaves none in the first `n - 1`
      attempts after the first. */
  lemma NotOkShift(r: Receiver, peer: Addr, w: Wire, cmd: string, delay: nat, n: nat)
    requires forall j :: 0 <= j < n ==> ReplyAt(r, peer, w, cmd, delay, j) != Some(Ok)
    ensures var w1 := Sleep(Exchange(r, peer, w, cmd).after, delay);
      forall j :: 0 <= j < n - 1 ==> ReplyAt(r, peer, w1, cmd, delay, j) != Some(Ok)
  {
    var w1 := Sleep(Exchange(r, peer, w, cmd).after, delay);
    forall j | 0 <= j < n - 1
      ensures ReplyAt(r, peer, w1, cmd, delay, j) != Some(Ok)
    {
      AttemptShift(r, peer, w, cmd, delay, j);
    }
  }

  lemma {:induction false} BeforeAttemptSent(r: Receiver, peer: Addr, w: Wire, cmd: string, delay: nat, k: nat)
    ensures BeforeAttempt(r, peer, w, cmd, delay, k).sent == w.sent + Repeat(cmd, k)
    decreases k
  {
    if k > 0 {
      var w1 := Sleep(Exchange(r, peer, w, cmd).after, delay);
      BeforeAttemptSent(r, peer, w1, cmd, delay, k - 1);
      assert w1.sent + Repeat(cmd, k - 1) == w.sent + Repeat(cmd, k);
    }
  }

  /** One attempt of `send_with_retry`. */
  lemma RetryStep(r: Receiver, peer: Addr, w: Wire, cmd: string, retries: int, delay: nat)
    requires retries > 0
    ensures var h := Exchange(r, peer, w, cmd);
      Retry(r, peer, w, cmd, retries, delay)
        == if h.reply == Some(Ok) then Outcome(true, h.after)
           else Retry(r, peer, Sleep(h.after, delay), cmd, retries - 1, delay)
  {
  }

  /** `send_with_retry` is True iff one of the first `retries` replies is
      exactly `ok`. */
  lemma {:induction false} RetrySucceedsIff(r: Receiver, peer: Addr, w: Wire, cmd: string, retries: int, delay: nat)
    ensures Retry(r, peer, w, cmd, retries, delay).ok
      <==> exists k :: 0 <= k < retries && ReplyAt(r, peer, w, cmd, delay, k) == Some(Ok)
    decreases retries
  {
    if retries > 0 {
      RetryStep(r, peer, w, cmd, retries, delay);
      var h := Exchange(r, peer, w, cmd);
      assert ReplyAt(r, peer, w, cmd, delay, 0) == h.reply;
      var w1 := Sleep(h.after, delay);
      RetrySucceedsIff(r, peer, w1, cmd, retries - 1, delay);
      forall k | 0 <= k < retries - 1
        ensures ReplyAt(r, peer, w1, cmd, delay, k) == ReplyAt(r, peer, w, cmd, delay, k + 1)
      {
        AttemptShift(r, peer, w, cmd, delay, k);
      }
      if h.reply != Some(Ok) {
        if exists k :: 0 <= k < retries && ReplyAt(r, peer, w, cmd, delay, k) == Some(Ok) {
          var k :| 0 <= k < retries && ReplyAt(r, peer, w, cmd, delay, k) == Some(Ok);
          assert k != 0;
          assert ReplyAt(r, peer, w1, cmd, delay, k - 1) == Some(Ok);
        }
      } else {
        assert ReplyAt(r, peer, w, cmd, delay, 0) == Some(Ok);
      }
    }
  }

  /** When attempt `k` is the first to get `ok`, `send_with_retry` is True
      with the socket as that attempt left it. */
  lemma {:induction false} RetryFirstOk(r: Receiver, peer: Addr, w: Wire, cmd: string, retries: int, delay: nat, k: nat)
    requires k < retries
    requires forall j :: 0 <= j < k ==> ReplyAt(r, peer, w, cmd, delay, j) != Some(Ok)
    requires ReplyAt(r, peer, w, cmd, delay, k) == Some(Ok)
    ensures Retry(r, peer, w, cmd, retries, delay)
      == Outcome(true, Exchange(r, peer, BeforeAttempt(r, peer, w, cmd, delay, k), cmd).after)
    decreases k
  {
    RetryStep(r, peer, w, cmd, retries, delay);
    if k > 0 {
      assert ReplyAt(r, peer, w, cmd, delay, 0) != Some(Ok);
      var w1 := Sleep(Exchange(r, peer, w, cmd).after, delay);
      NotOkShift(r, peer, w, cmd, delay, k);
      AttemptShift(r, peer, w, cmd, delay, k - 1);
      RetryFirstOk(r, peer, w1, cmd, retries - 1, delay, k - 1);
    }
  }

  /** When attempt `k` is the first to get `ok`, `send_with_retry` stops there:
      True, after exactly `k + 1` sends of the command. */
  lemma RetryStopsAtFirstOk(r: Receiver, peer: Addr, w: Wire, cmd: string, retries: int, delay: nat, k: nat)
    requires k < retries
    requires forall j :: 0 <= j < k ==> ReplyAt(r, peer, w, cmd, delay, j) != Some(Ok)
    requires ReplyAt(r, peer, w, cmd, delay, k) == Some(Ok)
    ensures var o := Retry(r, peer, w, cmd, retries, delay);
      o.ok && o.after.sent == w.sent + Repeat(cmd, k + 1)
  {
    RetryFirstOk(r, peer, w, cmd, retries, delay, k);
    BeforeAttemptSent(r, peer, w, cmd, delay, k);
    assert Repeat(cmd, k) + [cmd] == Repeat(cmd, k + 1);
  }

  /** When none of the first `retries` replies is `ok`, `send_with_retry` is
      False after exactly `retries` sends, one sleep after each. */
  lemma {:induction false} RetryExhausts(r: Receiver, peer: Addr, w: Wire, cmd: string, retries: nat, delay: nat)
    requires forall j :: 0 <= j < retries ==> ReplyAt(r, peer, w, cmd, delay, j) != Some(Ok)
    ensures Retry(r, peer, w, cmd, retries, delay) == Outcome(false, BeforeAttempt(r, peer, w, cmd, delay, retries))
    decreases retries
  {
    if retries > 0 {
      RetryStep(r, peer, w, cmd, retries, delay);
      assert ReplyAt(r, peer, w, cmd, delay, 0) != Some(Ok);
      var w1 := Sleep(Exchange(r, peer, w, cmd).after, delay);
      NotOkShift(r, peer, w, cmd, delay, retries);
      RetryExhausts(r, peer, w1, cmd, retries - 1, delay);
    }
  }

  /** One exchange with a drone that never answers: no reply, one timeout spent. */
  lemma SilentExchange(r: Receiver, peer: Addr, w: Wire, cmd: string)
    requires !r.Blocking? && w.inbox == []
    ensures Exchange(r, peer, w, cmd) == Heard(None, w.(sent := w.sent + [cmd], clock := w.clock + r.timeout))
  {
    var w1 := w.(sent := w.sent + [cmd]);
    if r.Matching? {
      assert AwaitPeer(peer, w1, w.clock + r.timeout) == Heard(None, w1.(clock := w.clock + r.timeout));
    }
  }

  /** A drone that never answers: a receiver with a timeout, facing an empty
      inbox, makes exactly `retries` sends, returns False, and has spent one
      timeout and one delay per attempt. */
  lemma {:induction false} SilentDroneExhaustsRetries(r: Receiver, peer: Addr, w: Wire, cmd: string, retries: nat, delay: nat)
    requires !r.Blocking? && w.inbox == []
    ensures Retry(r, peer, w, cmd, retries, delay)
      == Outcome(false, w.(sent := w.sent + Repeat(cmd, retries), clock := w.clock + retries * (r.timeout + delay)))
    decreases retries
  {
    if retries > 0 {
      SilentExchange(r, peer, w, cmd);
      var w1 := w.(sent := w.sent + [cmd], clock := w.clock + r.timeout + delay);
      assert Sleep(Exchange(r, peer, w, cmd).after, delay) == w1;
      SilentDroneExhaustsRetries(r, peer, w1, cmd, retries - 1, delay);
      assert w1.sent + Repeat(cmd, retries - 1) == w.sent + Repeat(cmd, retries);
      assert w1.clock + (retries - 1) * (r.timeout + delay) == w.clock + retries * (r.timeout + delay);
    }
  }

  /** `send_with_retry` on a link. */
  method SendWithRetry(link: Link, r: Receiver, cmd: string, retries: int, delay: nat) returns (ok: bool)
    modifies link
    ensures Outcome(ok, link.State()) == Retry(r, link.peer, old(link.State()), cmd, retries, delay)
  {
    var attempt := 1;
    while attempt <= retries
      invariant Retry(r, link.peer, link.State(), cmd, retries - attempt + 1, delay)
        == Retry(r, link.peer, old(link.State()), cmd, retries, delay)
      decreases retries - attempt
    {
      var resp := link.SendCommand(r, cmd);
      if resp == Some(Ok) {
        return true;
      }
      link.Pause(delay);
      attempt := attempt + 1;
    }
    return false;
  }

  /** The reply KeyboardControl.py's `send_command` treats as "no drone here". */
  const Unactive := "unactive"

  /** KeyboardControl.py's `send_command`: up to `retries` attempts; the first
      reply received ends it, `unactive` as None; a timeout moves on to the next
      attempt; no attempt left is None. No sleep between attempts. */
  function Attempts(r: Receiver, peer: Addr, w: Wire, cmd: string, retries: int): (h: Heard)
    ensures |w.sent| <= |h.after.sent| <= |w.sent| + Max(retries, 0)
    ensures h.after.sent == w.sent + Repeat(cmd, |h.after.sent| - |w.sent|)
    ensures h.reply != Some(Unactive)
    ensures h.after.open == w.open
    decreases retries
  {
    if retries <= 0 then Heard(None, w)
    else
      var h := Exchange(r, peer, w, cmd);
      match h.reply
      case Some(s) => if s == Unactive then Heard(None, h.after) else h
      case None => Attempts(r, peer, h.after, cmd, retries - 1)
  }

  /** A first reply of `unactive` ends the attempts at once: no further send. */
  lemma UnactiveShortCircuits(r: Receiver, peer: Addr, w: Wire, cmd: string, retries: int)
    requires retries > 0 && Exchange(r, peer, w, cmd).reply == Some(Unactive)
    ensures Attempts(r, peer, w, cmd, retries) == Heard(None, Exchange(r, peer, w, cmd).after)
    ensures Attempts(r, peer, w, cmd, retries).after.sent == w.sent + [cmd]
  {
  }

  /** One attempt of KeyboardControl.py's `send_command`. */
  lemma AttemptsStep(r: Receiver, peer: Addr, w: Wire, cmd: string, retries: int)
    requires retries > 0
    ensures var h := Exchange(r, peer, w, cmd);
      Attempts(r, peer, w, cmd, retries)
        == if h.reply.None? then Attempts(r, peer, h.after, cmd, retries - 1)
           else if h.reply == Some(Unactive) then Heard(None, h.after)
           else h
  {
  }

  /** The first attempt that receives anything ends the attempts: its reply is
      the result, unless it is `unactive`. Attempts follow each other with no
      sleep, so attempt `k` starts from `BeforeAttempt(.., 0, k)`. */
  lemma {:induction false} AttemptsFirstReply(r: Receiver, peer: Addr, w: Wire, cmd: string, retries: int, k: nat)
    requires k < retries
    requires forall j :: 0 <= j < k ==> ReplyAt(r, peer, w, cmd, 0, j).None?
    requires ReplyAt(r, peer, w, cmd, 0, k).Some?
    ensures var h := Exchange(r, peer, BeforeAttempt(r, peer, w, cmd, 0, k), cmd);
      Attempts(r, peer, w, cmd, retries)
        == Heard(if h.reply == Some(Unactive) then None else h.reply, h.after)
    decreases k
  {
    AttemptsStep(r, peer, w, cmd, retries);
    if k > 0 {
      var k' := k - 1;
      var h := Exchange(r, peer, w, cmd);
      assert ReplyAt(r, peer, w, cmd, 0, 0) == h.reply;
      assert Sleep(h.after, 0) == h.after;
      forall j | 0 <= j < k'
        ensures ReplyAt(r, peer, h.after, cmd, 0, j).None?
      {
        AttemptShift(r, peer, w, cmd, 0, j);
      }
      AttemptShift(r, peer, w, cmd, 0, k');
      AttemptsFirstReply(r, peer, h.after, cmd, retries - 1, k');
    }
  }

  /** When every attempt times out the result is None, after exactly `retries`
      sends. */
  lemma {:induction false} AttemptsAllSilent(r: Receiver, peer: Addr, w: Wire, cmd: string, retries: nat)
    requires forall j :: 0 <= j < retries ==> ReplyAt(r, peer, w, cmd, 0, j).None?
    ensures Attempts(r, peer, w, cmd, retries) == Heard(None, BeforeAttempt(r, peer, w, cmd, 0, retries))
    ensures Attempts(r, peer, w, cmd, retries).after.sent == w.sent + Repeat(cmd, retries)
    decreases retries
  {
    BeforeAttemptSent(r, peer, w, cmd, 0, retries);
    if retries > 0 {
      AttemptsStep(r, peer, w, cmd, retries);
      var h := Exchange(r, peer, w, cmd);
      assert ReplyAt(r, peer, w, cmd, 0, 0) == h.reply;
      assert Sleep(h.after, 0) == h.after;
      forall j | 0 <= j < retries - 1
        ensures ReplyAt(r, peer, h.after, cmd, 0, j).None?
      {
        AttemptShift(r, peer, w, cmd, 0, j);
      }
      AttemptsAllSilent(r, peer, h.after, cmd, retries - 1);
    }
  }

  /** KeyboardControl.py's `send_command` on a link. */
  method SendAttempts(link: Link, r: Receiver, cmd: string, retries: int) returns (reply: Option<string>)
    modifies link
    ensures Heard(reply, link.State()) == Attempts(r, link.peer, old(link.State()), cmd, retries)
  {
    var attempt := 0;
    while attempt < retries
      invariant Attempts(r, link.peer, link.State(), cmd, retries - attempt)
        == Attempts(r, link.peer, old(link.State()), cmd, retries)
      decreases retries - attempt
    {
      var resp := link.SendCommand(r, cmd);
      if resp.Some? {
        if resp.value == Unactive {
          return None;
        }
        return resp;
      }
      attempt := attempt + 1;
    }
    return None;
  }

  /** The concatenation of `counts[i]` copies of each `moves[i]`, in order. */
  function Expand(moves: seq<string>, counts: seq<nat>): seq<string>
    requires |counts| == |moves|
    decreases |moves|
  {
    if moves == [] then [] else Repeat(moves[0], counts[0]) + Expand(moves[1..], counts[1..])
  }

  /** `execute_flight_path(movements)`: `send_with_retry` for every movement in
      order, whatever the earlier ones returned. */
  function FlightPath(r: Receiver, peer: Addr, w: Wire, moves: seq<string>, retries: int, delay: nat): (w': Wire)
    ensures w'.open == w.open
    decreases |moves|
  {
    if moves == [] then w
    else FlightPath(r, peer, Retry(r, peer, w, moves[0], retries, delay).after, moves[1..], retries, delay)
  }

  /** How many attempts each movement of `execute_flight_path` takes. */
  function FlightCounts(r: Receiver, peer: Addr, w: Wire, moves: seq<string>, retries: int, delay: nat): (c: seq<nat>)
    ensures |c| == |moves|
    decreases |moves|
  {
    if moves == [] then []
    else
      var o := Retry(r, peer, w, moves[0], retries, delay);
      [|o.after.sent| - |w.sent|] + FlightCounts(r, peer, o.after, moves[1..], retries, delay)
  }

  /** Each movement takes between one and `retries` attempts. */
  lemma {:induction false} FlightCountsBounded(r: Receiver, peer: Addr, w: Wire, moves: seq<string>, retries: int, delay: nat)
    requires retries > 0
    ensures forall i :: 0 <= i < |moves| ==> 1 <= FlightCounts(r, peer, w, moves, retries, delay)[i] <= retries
    decreases |moves|
  {
    if moves != [] {
      var o := Retry(r, peer, w, moves[0], retries, delay);
      FlightCountsBounded(r, peer, o.after, moves[1..], retries, delay);
      var rest := FlightCounts(r, peer, o.after, moves[1..], retries, delay);
      var counts := FlightCounts(r, peer, w, moves, retries, delay);
      assert counts == [|o.after.sent| - |w.sent|] + rest;
      assert Max(retries, 0) == retries;
      assert 1 <= counts[0] <= retries by {
        if !o.ok { assert |o.after.sent| == |w.sent| + retries; }
      }
      forall i | 0 <= i < |counts| ensures 1 <= counts[i] <= retries {
        if i > 0 {
          assert counts[i] == rest[i - 1];
          assert 1 <= rest[i - 1] <= retries;
        }
      }
    }
  }

  /** The log of a flight path is each movement repeated as many times as it
      was attempted, in order. */
  lemma {:induction false} FlightPathSent(r: Receiver, peer: Addr, w: Wire, moves: seq<string>, retries: int, delay: nat)
    ensures FlightPath(r, peer, w, moves, retries, delay).sent
      == w.sent + Expand(moves, FlightCounts(r, peer, w, moves, retries, delay))
    decreases |moves|
  {
    if moves != [] {
      var o := Retry(r, peer, w, moves[0], retries, delay);
      var n := |o.after.sent| - |w.sent|;
      FlightPathSent(r, peer, o.after, moves[1..], retries, delay);
      var rest := FlightCounts(r, peer, o.after, moves[1..], retries, delay);
      var counts := FlightCounts(r, peer, w, moves, retries, delay);
      assert counts[1..] == rest;
      assert Expand(moves, counts) == Repeat(moves[0], n) + Expand(moves[1..], rest);
    }
  }

  /** Every movement is attempted, in order, between once and `retries` times:
      a failure never skips a later movement. */
  lemma FlightPathAttemptsAll(r: Receiver, peer: Addr, w: Wire, moves: seq<string>, retries: int, delay: nat)
    requires retries > 0
    ensures var counts := FlightCounts(r, peer, w, moves, retries, delay);
      && (forall i :: 0 <= i < |counts| ==> 1 <= counts[i] <= retries)
      && FlightPath(r, peer, w, moves, retries, delay).sent == w.sent + Expand(moves, counts)
  {
    FlightCountsBounded(r, peer, w, moves, retries, delay);
    FlightPathSent(r, peer, w, moves, retries, delay);
  }

  /** `execute_flight_path` on a link. */
  method ExecuteFlightPath(link: Link, r: Receiver, moves: seq<string>, retries: int, delay: nat)
    modifies link
    ensures link.State() == FlightPath(r, link.peer, old(link.State()), moves, retries, delay)
  {
    for i := 0 to |moves|
      invariant FlightPath(r, link.peer, link.State(), moves[i..], retries, delay)
        == FlightPath(r, link.peer, old(link.State()), moves, retries, delay)
    {
      assert moves[i..][1..] == moves[i + 1..];
      var _ := SendWithRetry(link, r, moves[i], retries, delay);
    }
  }
}
