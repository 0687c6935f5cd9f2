/** tello_multi_height_sync.py and HandControl2_WithRetry_Rename_3.py: the
    guarded launch, then height levelling against the heights the other
    drones recorded, then the `if/elif` key loop with the battery-gated flip.
    The first gives every drone its own socket and filters replies by
    source; the second shares one socket and takes the first datagram. */
module HeightSync {
  import opened Wrappers
  import opened Text
  import opened Transport
  import opened Reliable
  import opened Readings
  import opened Keys
  import opened KeyLoop
  import opened Sessions
  import opened Levelling

  /** tello_multi_height_sync.py's launch: own socket, source filter. */
  const FilteredPlan := LaunchPlan(Matching(ReplyTimeout), 3, SingleQuery, false)

  /** tello_multi_height_sync.py's key loop: `b` prints the battery, space
      flips only at 60 % or more, 100 ms polling. The loop runs in a daemon
      thread, so a Ctrl+C, which only the main thread gets, ends it without
      reaching its `except KeyboardInterrupt`. */
  const FilteredKeys := Profile(Matching(ReplyTimeout), Retried(3, 1000), FirstMatch,
    Moves + [Binding(B, Query("battery?"), 0), Binding(Space, GatedFlip, 0), Binding(L, Land, 0)],
    100, Fatal)

  /** HandControl2_WithRetry_Rename_3.py's launch: shared socket, replies
      stripped. */
  const SharedPlan := LaunchPlan(AnySource(ReplyTimeout, true), 3, SingleQuery, false)

  /** HandControl2_WithRetry_Rename_3.py's key loop: no `b` branch, also in
      a daemon thread. */
  const SharedKeys := Profile(AnySource(ReplyTimeout, true), Retried(3, 1000), FirstMatch,
    Moves + [Binding(Space, GatedFlip, 0), Binding(L, Land, 0)],
    100, Fatal)

  /** With `l` alone held down, both loops land and end, whatever polls
      come after. */
  lemma LandKeyLands(peer: Addr, w: Wire, more: seq<Poll>)
    ensures var f := Fly(FilteredKeys, peer, w, [Pressed({L})] + more);
      f.end == Landed && |f.after.sent| > |w.sent| && f.after.sent[|f.after.sent| - 1] == "land"
    ensures var f := Fly(SharedKeys, peer, w, [Pressed({L})] + more);
      f.end == Landed && |f.after.sent| > |w.sent| && f.after.sent[|f.after.sent| - 1] == "land"
  {
    LandOnlyL(FilteredKeys, [Binding(B, Query("battery?"), 0), Binding(Space, GatedFlip, 0), Binding(L, Land, 0)], peer, w, more);
    LandOnlyL(SharedKeys, [Binding(Space, GatedFlip, 0), Binding(L, Land, 0)], peer, w, more);
  }

  /** A loop whose bindings are the movements, then `tail` ending on the land
      branch with no other `l` binding, lands and ends when `l` alone is held. */
  lemma LandOnlyL(p: Profile, tail: seq<Binding>, peer: Addr, w: Wire, more: seq<Poll>)
    requires p.dispatch == FirstMatch && SendsAtLeastOnce(p.delivery)
    requires p.bindings == Moves + tail && |tail| > 0 && tail[|tail| - 1] == Binding(L, Land, 0)
    requires forall j :: 0 <= j < |tail| - 1 ==> tail[j].key != L
    ensures var f := Fly(p, peer, w, [Pressed({L})] + more);
      f.end == Landed && |f.after.sent| > |w.sent| && f.after.sent[|f.after.sent| - 1] == "land"
  {
    FirstPressedAfter(Moves, tail, {L});
    LandKeyEndsLoop(p, peer, w, {L}, more);
  }

  /** Ctrl+C as written: the main thread, waiting in `join`, dies of it and
      takes the daemon threads with it, so a drone in the air is left there
      with no `land` sent, in both scripts. */
  lemma CtrlCLeavesDroneFlying(peer: Addr, w: Wire, polls: seq<Poll>)
    ensures Fly(FilteredKeys, peer, w, polls).end == Unfinished ==>
      Fly(FilteredKeys, peer, w, polls + [Interrupt]) == Flight(Interrupted, Fly(FilteredKeys, peer, w, polls).after)
    ensures Fly(SharedKeys, peer, w, polls).end == Unfinished ==>
      Fly(SharedKeys, peer, w, polls + [Interrupt]) == Flight(Interrupted, Fly(SharedKeys, peer, w, polls).after)
  {
    if Fly(FilteredKeys, peer, w, polls).end == Unfinished {
      CtrlCEndsSilently(FilteredKeys, peer, w, polls);
    }
    if Fly(SharedKeys, peer, w, polls).end == Unfinished {
      CtrlCEndsSilently(SharedKeys, peer, w, polls);
    }
  }

  /** Ctrl+C where the main thread's `join` cannot be interrupted (as on
      Windows): the main thread goes on waiting and the daemon threads go on
      polling as if nothing had happened, so again no `land` is sent. */
  lemma CtrlCDuringUninterruptibleJoin(peer: Addr, w: Wire, polls: seq<Poll>, more: seq<Poll>)
    ensures var p := FilteredKeys.(onCtrlC := Unseen);
      Fly(p, peer, w, polls + [Interrupt] + more) == Fly(p, peer, w, polls + more)
    ensures var p := SharedKeys.(onCtrlC := Unseen);
      Fly(p, peer, w, polls + [Interrupt] + more) == Fly(p, peer, w, polls + more)
  {
    CtrlCUnseen(FilteredKeys.(onCtrlC := Unseen), peer, w, polls, more);
    CtrlCUnseen(SharedKeys.(onCtrlC := Unseen), peer, w, polls, more);
  }

  /** The two loops as their handlers intend them, the interrupt delivered
      to the thread running each. */
  const RelayedFilteredKeys := FilteredKeys.(onCtrlC := Caught)
  const RelayedSharedKeys := SharedKeys.(onCtrlC := Caught)

  /** Ctrl+C as the handlers intend it: were the interrupt delivered to the
      thread running the loop, both loops would send `land` last and end. */
  lemma RelayedCtrlCLands(peer: Addr, w: Wire, polls: seq<Poll>)
    ensures Fly(RelayedFilteredKeys, peer, w, polls).end == Unfinished ==>
      var f := Fly(RelayedFilteredKeys, peer, w, polls + [Interrupt]);
      f.end == Interrupted && |f.after.sent| > 0 && f.after.sent[|f.after.sent| - 1] == "land"
    ensures Fly(RelayedSharedKeys, peer, w, polls).end == Unfinished ==>
      var f := Fly(RelayedSharedKeys, peer, w, polls + [Interrupt]);
      f.end == Interrupted && |f.after.sent| > 0 && f.after.sent[|f.after.sent| - 1] == "land"
  {
    CtrlCLandsLast(RelayedFilteredKeys, peer, w, polls);
    CtrlCLandsLast(RelayedSharedKeys, peer, w, polls);
  }

  /** The result of levelling: the height read, the board with it recorded,
      and the socket afterwards. */
  datatype Levelled = Levelled(height: Option<int>, board: map<string, int>, after: Wire)

  /** `get_height`, `heights[ip] = my_h` when there is a height, the target
      off the board, and `send_with_retry` of the correction when one is due.
      `others` is the board as the other drones left it at the barrier. The
      first command is `height?`, and the board gains at most this drone's
      entry, the other drones' entries kept as they were. */
  function Level(plan: LaunchPlan, peer: Addr, w: Wire, others: map<string, int>): (l: Levelled)
    ensures |l.after.sent| > |w.sent| && l.after.sent[..|w.sent| + 1] == w.sent + ["height?"]
    ensures l.after.open == w.open
    ensures l.board.Keys <= others.Keys + {peer.ip}
    ensures forall ip :: ip in others && ip != peer.ip ==> ip in l.board && l.board[ip] == others[ip]
    ensures peer.ip in l.board <==> peer.ip in others || l.height.Some?
  {
    var m := Exchange(plan.receiver, peer, w, "height?");
    var myH := HeightOf(m.reply);
    var board := if myH.Some? then others[peer.ip := myH.value] else others;
    var fix := if myH.Some? then Correction(Target(board, myH), myH.value) else None;
    Levelled(myH, board,
             if fix.Some? then Retry(plan.receiver, peer, m.after, fix.value, plan.retries, 1000).after
             else m.after)
  }

  /** A drone with no height reading records nothing and sends nothing after
      `height?`. */
  lemma UnmeasuredDroneSkipsLevelling(plan: LaunchPlan, peer: Addr, w: Wire, others: map<string, int>)
    requires HeightOf(Exchange(plan.receiver, peer, w, "height?").reply).None?
    ensures var l := Level(plan, peer, w, others);
      l.board == others && l.after.sent == w.sent + ["height?"]
  {
  }

  /** A drone at or below every other recorded height is the target and sends
      nothing after `height?`. */
  lemma LowestDroneStaysPut(plan: LaunchPlan, peer: Addr, w: Wire, others: map<string, int>, h: int)
    requires HeightOf(Exchange(plan.receiver, peer, w, "height?").reply) == Some(h)
    requires forall ip :: ip in others ==> h <= others[ip]
    ensures var l := Level(plan, peer, w, others);
      l.board == others[peer.ip := h] && l.after.sent == w.sent + ["height?"]
  {
    var board := others[peer.ip := h];
    var t := Target(board, Some(h));
    assert t <= board[peer.ip];
    assert t in board.Values;
    var ip :| ip in board && board[ip] == t;
    assert h <= t;
  }

  /** A measured drone records its height and then sends only its correction:
      always `down`, and carrying it out would put the drone exactly at the
      lowest recorded height. */
  lemma LevellingOnlyDescends(plan: LaunchPlan, peer: Addr, w: Wire, others: map<string, int>, h: int)
    requires HeightOf(Exchange(plan.receiver, peer, w, "height?").reply) == Some(h)
    ensures var l := Level(plan, peer, w, others);
      var t := Target(others[peer.ip := h], Some(h));
      && l.board == others[peer.ip := h]
      && l.after.sent[..|w.sent| + 1] == w.sent + ["height?"]
      && forall i :: |w.sent| + 1 <= i < |l.after.sent| ==>
           |l.after.sent[i]| > 5 && l.after.sent[i][..5] == "down " && Moved(h, l.after.sent[i]) == Some(t)
  {
    var m := Exchange(plan.receiver, peer, w, "height?");
    var board := others[peer.ip := h];
    var t := Target(board, Some(h));
    var l := Level(plan, peer, w, others);
    NeverUp(board, peer.ip);
    var fix := Correction(t, h);
    if fix.Some? {
      CorrectionReachesTarget(t, h);
      var o := Retry(plan.receiver, peer, m.after, fix.value, plan.retries, 1000);
      var n := |o.after.sent| - |m.after.sent|;
      forall i | |w.sent| + 1 <= i < |l.after.sent|
        ensures l.after.sent[i] == fix.value
      {
        assert l.after.sent[i] == Repeat(fix.value, n)[i - |m.after.sent|];
      }
      assert l.after.sent[..|w.sent| + 1] == m.after.sent;
    }
  }

  /** One drone's `control_drone`: launch, levelling, key loop. A drone that
      reached the key loop was sent `takeoff`. */
  function SyncSession(plan: LaunchPlan, p: Profile, peer: Addr, w: Wire, others: map<string, int>, polls: seq<Poll>): (r: Run)
    ensures w.sent <= r.after.sent && r.after.open == w.open
    ensures r.Flew? ==> "takeoff" in r.after.sent[|w.sent|..]
  {
    match Launch(plan, peer, w)
    case Grounded(st, a) => Aborted(st, a)
    case Airborne(a) =>
      var l := Level(plan, peer, a, others);
      var f := Fly(p, peer, l.after, polls);
      assert a.sent <= l.after.sent by {
        assert l.after.sent[..|a.sent|] == l.after.sent[..|a.sent| + 1][..|a.sent|];
      }
      InLaterSuffix(a.sent, f.after.sent, |w.sent|, "takeoff");
      Flew(f.end, f.after)
  }

  /** The board after one drone's session: its height recorded if it got
      airborne and measured one; the other drones' entries are kept. */
  function SyncBoard(plan: LaunchPlan, peer: Addr, w: Wire, others: map<string, int>): (b: map<string, int>)
    ensures b.Keys <= others.Keys + {peer.ip}
    ensures forall ip :: ip in others && ip != peer.ip ==> ip in b && b[ip] == others[ip]
    ensures Launch(plan, peer, w).Grounded? ==> b == others
  {
    match Launch(plan, peer, w)
    case Grounded(_, _) => others
    case Airborne(a) => Level(plan, peer, a, others).board
  }

  /** Levelling on a link and the shared board. */
  method LevelOn(link: Link, board: HeightBoard, plan: LaunchPlan) returns (myH: Option<int>)
    modifies link, board
    ensures Levelled(myH, board.heights, link.State()) == Level(plan, link.peer, old(link.State()), old(board.heights))
  {
    var resp := link.SendCommand(plan.receiver, "height?");
    myH := HeightOf(resp);
    board.Record(link.peer.ip, myH);
    if myH.Some? {
      var fix := Correction(board.TargetFor(myH), myH.value);
      if fix.Some? {
        var _ := SendWithRetry(link, plan.receiver, fix.value, plan.retries, 1000);
      }
    }
  }

  /** `control_drone` on a link and the shared board. */
  method RunSync(link: Link, board: HeightBoard, plan: LaunchPlan, p: Profile, polls: seq<Poll>) returns (run: Run)
    modifies link, board
    ensures run == SyncSession(plan, p, link.peer, old(link.State()), old(board.heights), polls)
    ensures board.heights == SyncBoard(plan, link.peer, old(link.State()), old(board.heights))
  {
    var stage := LaunchOn(link, plan);
    if stage.Some? {
      return Aborted(stage.value, link.State());
    }
    var _ := LevelOn(link, board, plan);
    var end := FlyByKeys(link, p, polls);
    return Flew(end, link.State());
  }
}
