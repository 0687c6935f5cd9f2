/** What the scripts read out of replies: `get_height`, the battery gates in
    their single-query and three-query forms, and the flip gate. */
module Readings {
  import opened Wrappers
  import opened Text
  import opened Transport
  import opened Reliable

  /** `MIN_BATTERY`: the charge (%) a launch needs. */
  const MinBattery := 40

  /** The charge (%) the gated flips need. */
  const FlipBattery := 60

  /** A check that can also end its caller: `Raised` is an exception the check
      does not catch (`int(None)` raising `TypeError`). */
  datatype Gate = Passed | Refused | Raised

  /** `get_height`'s reading: a reply that ends in `cm` with an integer before it. */
  function HeightOf(reply: Option<string>): (h: Option<int>)
    ensures h.Some? ==> reply.Some? && EndsWith(reply.value, "cm")
    ensures h.Some? ==> ParseInt(reply.value[..|reply.value| - 2]) == h
  {
    match reply
    case None => None
    case Some(s) => if s != [] && EndsWith(s, "cm") then ParseInt(s[..|s| - 2]) else None
  }

  /** A drone reporting `<n>cm` is read as height `n`. */
  lemma HeightReadsBack(n: int)
    ensures HeightOf(Some(IntToString(n) + "cm")) == Some(n)
  {
    var s := IntToString(n) + "cm";
    assert s[..|s| - 2] == IntToString(n);
    ParseIntRoundTrip(n);
  }

  /** No reply, no `cm` suffix, or no integer before it: no height. */
  lemma HeightRejects(s: string)
    requires !EndsWith(s, "cm") || ParseInt(s[..|s| - 2]).None?
    ensures HeightOf(Some(s)) == None && HeightOf(None) == None
  {
  }

  /** `int(resp)` on a `battery?` reply; `None` stands for both the `TypeError`
      of a missing reply and the `ValueError` of a non-integer one. */
  function LevelOf(reply: Option<string>): (l: Option<int>)
    ensures l.Some? <==> reply.Some? && ParseInt(reply.value).Some?
  {
    match reply
    case None => None
    case Some(s) => ParseInt(s)
  }

  /** The single-query `battery_check` / `battery_ok` of the filtering and
      shared-socket scripts: both exceptions are caught and mean False. */
  function BatteryOk(reply: Option<string>): (ok: bool)
    ensures ok <==> LevelOf(reply).Some? && LevelOf(reply).value >= MinBattery
  {
    match LevelOf(reply)
    case None => false
    case Some(l) => l >= MinBattery
  }

  /** The boundary is inclusive: a drone reporting `n` passes iff `n >= 40`,
      so `40` passes and `39` fails, with or without trailing whitespace. */
  lemma BatteryBoundary(n: int, pad: string)
    requires forall i :: 0 <= i < |pad| ==> IsSpace(pad[i])
    ensures BatteryOk(Some(IntToString(n) + pad)) <==> n >= MinBattery
  {
    ParseIntOfPadded(IntToString(n), pad);
    ParseIntRoundTrip(n);
  }

  /** The single-query `battery_check` of RoiNew.py and ConnectToWifi.py: only
      `ValueError` is caught, so a failed receive (`send_command` returns
      `None`) escapes as an exception. */
  function BatteryStrict(reply: Option<string>): (g: Gate)
    ensures g == Raised <==> reply.None?
    ensures g == Passed <==> BatteryOk(reply)
  {
    match reply
    case None => Raised
    case Some(s) =>
      match ParseInt(s)
      case None => Refused
      case Some(l) => if l >= MinBattery then Passed else Refused
  }

  /** A query's result with the socket afterwards. */
  datatype Checked = Checked(gate: Gate, after: Wire)

  /** A query asked again until a reply decides it: `verdict` maps a reply to
      the gate it decides, or to `None` for another query after `delay` ms;
      `tries` undecided replies in a row are `Refused`. */
  function QueryUntil(r: Receiver, peer: Addr, w: Wire, cmd: string, tries: int, delay: nat,
                      verdict: Option<string> -> Option<Gate>): (c: Checked)
    ensures |w.sent| <= |c.after.sent| <= |w.sent| + Max(tries, 0)
    ensures tries > 0 ==> |c.after.sent| > |w.sent|
    ensures c.after.sent == w.sent + Repeat(cmd, |c.after.sent| - |w.sent|)
    decreases tries
  {
    if tries <= 0 then Checked(Refused, w)
    else
      var h := Exchange(r, peer, w, cmd);
      match verdict(h.reply)
      case Some(g) => Checked(g, h.after)
      case None => QueryUntil(r, peer, Sleep(h.after, delay), cmd, tries - 1, delay, verdict)
  }

  /** Undecided replies to the first `n` attempts leave the first `n - 1`
      attempts after a failed one undecided. */
  lemma UndecidedShift(r: Receiver, peer: Addr, w: Wire, cmd: string, delay: nat,
                       verdict: Option<string> -> Option<Gate>, n: nat)
    requires forall j :: 0 <= j < n ==> verdict(ReplyAt(r, peer, w, cmd, delay, j)).None?
    ensures var w1 := Sleep(Exchange(r, peer, w, cmd).after, delay);
      forall j :: 0 <= j < n - 1 ==> verdict(ReplyAt(r, peer, w1, cmd, delay, j)).None?
  {
    var w1 := Sleep(Exchange(r, peer, w, cmd).after, delay);
    forall j | 0 <= j < n - 1
      ensures verdict(ReplyAt(r, peer, w1, cmd, delay, j)).None?
    {
      AttemptShift(r, peer, w, cmd, delay, j);
    }
  }

  /** The first deciding reply decides the loop, after one query more than
      the undecided ones before it. */
  lemma {:induction false} QueryDecidedAt(r: Receiver, peer: Addr, w: Wire, cmd: string, tries: int, delay: nat,
                                          verdict: Option<string> -> Option<Gate>, k: nat)
    requires k < tries
    requires forall j :: 0 <= j < k ==> verdict(ReplyAt(r, peer, w, cmd, delay, j)).None?
    requires verdict(ReplyAt(r, peer, w, cmd, delay, k)).Some?
    ensures QueryUntil(r, peer, w, cmd, tries, delay, verdict)
      == Checked(verdict(ReplyAt(r, peer, w, cmd, delay, k)).value,
                 Exchange(r, peer, BeforeAttempt(r, peer, w, cmd, delay, k), cmd).after)
    decreases k
  {
    var h := Exchange(r, peer, w, cmd);
    if k == 0 {
      assert BeforeAttempt(r, peer, w, cmd, delay, 0) == w;
      assert verdict(h.reply).Some?;
    } else {
      assert verdict(ReplyAt(r, peer, w, cmd, delay, 0)).None?;
      var w1 := Sleep(h.after, delay);
      assert QueryUntil(r, peer, w, cmd, tries, delay, verdict) == QueryUntil(r, peer, w1, cmd, tries - 1, delay, verdict);
      UndecidedShift(r, peer, w, cmd, delay, verdict, k);
      AttemptShift(r, peer, w, cmd, delay, k - 1);
      QueryDecidedAt(r, peer, w1, cmd, tries - 1, delay, verdict, k - 1);
    }
  }

  /** No deciding reply in `tries` queries: `Refused`, after `tries` queries,
      each followed by the delay. */
  lemma {:induction false} QueryUndecided(r: Receiver, peer: Addr, w: Wire, cmd: string, tries: nat, delay: nat,
                                          verdict: Option<string> -> Option<Gate>)
    requires forall j :: 0 <= j < tries ==> verdict(ReplyAt(r, peer, w, cmd, delay, j)).None?
    ensures QueryUntil(r, peer, w, cmd, tries, delay, verdict)
      == Checked(Refused, BeforeAttempt(r, peer, w, cmd, delay, tries))
    decreases tries
  {
    if tries > 0 {
      assert verdict(ReplyAt(r, peer, w, cmd, delay, 0)).None?;
      var w1 := Sleep(Exchange(r, peer, w, cmd).after, delay);
      UndecidedShift(r, peer, w, cmd, delay, verdict, tries);
      QueryUndecided(r, peer, w1, cmd, tries - 1, delay, verdict);
    }
  }

  /** The query loop on a link. */
  method QueryOn(link: Link, r: Receiver, cmd: string, tries: int, delay: nat,
                 verdict: Option<string> -> Option<Gate>) returns (g: Gate)
    modifies link
    ensures Checked(g, link.State()) == QueryUntil(r, link.peer, old(link.State()), cmd, tries, delay, verdict)
  {
    var left := tries;
    while left > 0
      invariant QueryUntil(r, link.peer, link.State(), cmd, left, delay, verdict)
        == QueryUntil(r, link.peer, old(link.State()), cmd, tries, delay, verdict)
    {
      var v := QueryOnce(link, r, cmd, left, delay, verdict);
      if v.Some? {
        return v.value;
      }
      left := left - 1;
    }
    return Refused;
  }

  /** One pass of the query loop: the query, then, unless its reply decides,
      the pause before the next one. */
  method QueryOnce(link: Link, r: Receiver, cmd: string, tries: int, delay: nat,
                   verdict: Option<string> -> Option<Gate>) returns (v: Option<Gate>)
    requires tries > 0
    modifies link
    ensures v.Some? ==>
      Checked(v.value, link.State()) == QueryUntil(r, link.peer, old(link.State()), cmd, tries, delay, verdict)
    ensures v.None? ==>
      QueryUntil(r, link.peer, link.State(), cmd, tries - 1, delay, verdict)
        == QueryUntil(r, link.peer, old(link.State()), cmd, tries, delay, verdict)
  {
    ghost var before := link.State();
    var resp := link.SendCommand(r, cmd);
    ghost var heard := link.State();
    v := verdict(resp);
    QueryStep(r, link.peer, before, cmd, tries, delay, verdict, resp, heard);
    if v.None? {
      link.Pause(delay);
    }
  }

  /** One attempt of `QueryUntil` with attempts left: the query is sent, and
      its reply either decides or is followed by the remaining attempts. */
  lemma QueryStep(r: Receiver, peer: Addr, w: Wire, cmd: string, tries: int, delay: nat,
                  verdict: Option<string> -> Option<Gate>, reply: Option<string>, heard: Wire)
    requires tries > 0 && Heard(reply, heard) == Exchange(r, peer, w, cmd)
    ensures verdict(reply).Some? ==>
      QueryUntil(r, peer, w, cmd, tries, delay, verdict) == Checked(verdict(reply).value, heard)
    ensures verdict(reply).None? ==>
      QueryUntil(r, peer, w, cmd, tries, delay, verdict)
        == QueryUntil(r, peer, Sleep(heard, delay), cmd, tries - 1, delay, verdict)
  {
  }

  /** One reply of the three-query check: an integer decides, high or low. */
  function RetriedVerdict(reply: Option<string>): (v: Option<Gate>)
    ensures v.None? <==> LevelOf(reply).None?
    ensures v.Some? ==> v.value != Raised && (v.value == Passed <==> BatteryOk(reply))
  {
    match LevelOf(reply)
    case None => None
    case Some(l) => Some(if l >= MinBattery then Passed else Refused)
  }

  /** The three-query `battery_check` of the shared-socket scripts: the first
      integer reply decides, low or not; any other reply is followed by a 1 s
      sleep and a new query; no integer in `tries` queries is False. It sends
      only `battery?`, at most `tries` times, and passes only after one. */
  function BatteryRetried(r: Receiver, peer: Addr, w: Wire, tries: int): (o: Outcome)
    ensures |w.sent| <= |o.after.sent| <= |w.sent| + Max(tries, 0)
    ensures o.after.sent == w.sent + Repeat("battery?", |o.after.sent| - |w.sent|)
    ensures o.ok ==> |o.after.sent| > |w.sent|
  {
    var c := QueryUntil(r, peer, w, "battery?", tries, 1000, RetriedVerdict);
    Outcome(c.gate == Passed, c.after)
  }

  /** The first query whose reply is an integer decides the three-query check,
      after exactly one query more than the unreadable ones before it. */
  lemma BatteryRetriedFirstReading(r: Receiver, peer: Addr, w: Wire, tries: int, k: nat, level: int)
    requires k < tries
    requires forall j :: 0 <= j < k ==> LevelOf(ReplyAt(r, peer, w, "battery?", 1000, j)).None?
    requires LevelOf(ReplyAt(r, peer, w, "battery?", 1000, k)) == Some(level)
    ensures BatteryRetried(r, peer, w, tries)
      == Outcome(level >= MinBattery, Exchange(r, peer, BeforeAttempt(r, peer, w, "battery?", 1000, k), "battery?").after)
  {
    forall j | 0 <= j < k ensures RetriedVerdict(ReplyAt(r, peer, w, "battery?", 1000, j)).None? {
    }
    QueryDecidedAt(r, peer, w, "battery?", tries, 1000, RetriedVerdict, k);
  }

  /** No integer among the `tries` replies: False, after `tries` queries, each
      followed by a 1 s sleep, so always `tries` commands on the wire. */
  lemma BatteryRetriedUnreadable(r: Receiver, peer: Addr, w: Wire, tries: nat)
    requires forall j :: 0 <= j < tries ==> LevelOf(ReplyAt(r, peer, w, "battery?", 1000, j)).None?
    ensures BatteryRetried(r, peer, w, tries) == Outcome(false, BeforeAttempt(r, peer, w, "battery?", 1000, tries))
    ensures BatteryRetried(r, peer, w, tries).after.sent == w.sent + Repeat("battery?", tries)
  {
    forall j | 0 <= j < tries ensures RetriedVerdict(ReplyAt(r, peer, w, "battery?", 1000, j)).None? {
    }
    QueryUndecided(r, peer, w, "battery?", tries, 1000, RetriedVerdict);
    BeforeAttemptSent(r, peer, w, "battery?", 1000, tries);
  }

  /** The three-query `battery_check` on a link. */
  method CheckBatteryRetried(link: Link, r: Receiver, tries: int) returns (ok: bool)
    modifies link
    ensures Outcome(ok, link.State()) == BatteryRetried(r, link.peer, old(link.State()), tries)
  {
    var g := QueryOn(link, r, "battery?", tries, 1000, RetriedVerdict);
    ok := g == Passed;
  }

  /** One reply of RoiNew2.py's check: an integer decides, high or low; no
      reply raises; any other reply asks again. */
  function PersistentVerdict(reply: Option<string>): (v: Option<Gate>)
    ensures v.None? <==> reply.Some? && LevelOf(reply).None?
    ensures v.Some? ==> v.value == BatteryStrict(reply)
  {
    match reply
    case None => Some(Raised)
    case Some(s) =>
      match ParseInt(s)
      case None => None
      case Some(l) => Some(if l >= MinBattery then Passed else Refused)
  }

  /** RoiNew2.py's `battery_check`: an integer decides at once, high or low; a
      non-integer reply is queried again with no sleep; a missing reply raises
      `TypeError`, which this check does not catch. It sends only
      `battery?`, at most `tries` times, and decides only after one. */
  function BatteryPersistent(r: Receiver, peer: Addr, w: Wire, tries: int): (c: Checked)
    ensures |w.sent| <= |c.after.sent| <= |w.sent| + Max(tries, 0)
    ensures c.after.sent == w.sent + Repeat("battery?", |c.after.sent| - |w.sent|)
    ensures c.gate != Refused || tries <= 0 || |c.after.sent| > |w.sent|
  {
    QueryUntil(r, peer, w, "battery?", tries, 0, PersistentVerdict)
  }

  /** The first reply that is missing or an integer decides RoiNew2.py's check
      exactly as the strict single query would decide it. */
  lemma BatteryPersistentDecidedAt(r: Receiver, peer: Addr, w: Wire, tries: int, k: nat)
    requires k < tries
    requires forall j :: 0 <= j < k ==> var rep := ReplyAt(r, peer, w, "battery?", 0, j);
      rep.Some? && ParseInt(rep.value).None?
    requires var rep := ReplyAt(r, peer, w, "battery?", 0, k); rep.None? || ParseInt(rep.value).Some?
    ensures BatteryPersistent(r, peer, w, tries)
      == Checked(BatteryStrict(ReplyAt(r, peer, w, "battery?", 0, k)),
                 Exchange(r, peer, BeforeAttempt(r, peer, w, "battery?", 0, k), "battery?").after)
  {
    forall j | 0 <= j < k ensures PersistentVerdict(ReplyAt(r, peer, w, "battery?", 0, j)).None? {
    }
    QueryDecidedAt(r, peer, w, "battery?", tries, 0, PersistentVerdict, k);
  }

  /** RoiNew2.py's `battery_check` on a link; `Raised` is the escaping exception. */
  method CheckBatteryPersistent(link: Link, r: Receiver, tries: int) returns (g: Gate)
    modifies link
    ensures Checked(g, link.State()) == BatteryPersistent(r, link.peer, old(link.State()), tries)
  {
    g := QueryOn(link, r, "battery?", tries, 0, PersistentVerdict);
  }

  /** `int(send_command('battery?') or 0)`: a missing or empty reply reads as 0;
      `None` is the `ValueError` of any other non-integer reply. */
  function FlipLevel(reply: Option<string>): (l: Option<int>)
    ensures reply.None? || reply.value == [] ==> l == Some(0)
    ensures reply.Some? && reply.value != [] ==> l == ParseInt(reply.value)
  {
    match reply
    case None => Some(0)
    case Some(s) => if s == [] then Some(0) else ParseInt(s)
  }

  /** The flip gate: a flip only at a reading of at least 60; a non-integer
      reading raises out of the key loop. */
  function FlipGate(reply: Option<string>): (g: Gate)
    ensures g == Passed ==> reply.Some? && ParseInt(reply.value).Some? && ParseInt(reply.value).value >= FlipBattery
    ensures g == Raised <==> FlipLevel(reply).None?
  {
    match FlipLevel(reply)
    case None => Raised
    case Some(l) => if l >= FlipBattery then Passed else Refused
  }

  /** A drone reporting `n` may flip iff `n >= 60`; no reply denies the flip. */
  lemma FlipBoundary(n: int)
    ensures FlipGate(Some(IntToString(n))) == (if n >= FlipBattery then Passed else Refused)
    ensures FlipGate(None) == Refused
  {
    ParseIntRoundTrip(n);
    assert IntToString(n) != [] by {
      if n < 0 { assert IntToString(n)[0] == '-'; }
    }
  }
}
