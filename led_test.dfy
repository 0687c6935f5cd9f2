/** LEDtest.py: SDK mode by `send_with_retry`, then the battery and the
    clock read and printed, a green LED, and a text scrolled on the LED
    matrix; the socket is closed in the `finally`. The scrolled text is a
    parameter, `banner`. */
module LedTest {
  import opened Wrappers
  import opened Transport
  import opened Reliable
  import opened Chains

  /** The Tello SDK's `EXT mled l r 1 <text>`: scroll left, red, rate 1. */
  function Scroll(banner: string): (cmd: string)
    ensures |cmd| == 15 + |banner|
    ensures cmd[..15] == "EXT mled l r 1 " && cmd[15..] == banner
  {
    "EXT mled l r 1 " + banner
  }

  /** After SDK mode: the two queries, the green LED, the banner. The two
      queries come first, and four to eight commands are sent in all. */
  function Signal(peer: Addr, w: Wire, banner: string): (r: Wire)
    ensures w.sent + ["battery?", "time?"] <= r.sent
    ensures |w.sent| + 4 <= |r.sent| <= |w.sent| + 8
  {
    var w1 := Unchecked(Blocking, peer, w, ["battery?", "time?"]);
    var green := Retry(Blocking, peer, w1, "EXT led 0 255 0", 3, 0);
    Retry(Blocking, peer, green.after, Scroll(banner), 3, 0).after
  }

  /** The two queries come first, then the green LED's attempts, then the
      banner's. */
  lemma SignalInOrder(peer: Addr, w: Wire, banner: string)
    ensures exists a: nat, b: nat ::
      && 1 <= a <= 3 && 1 <= b <= 3
      && Signal(peer, w, banner).sent == w.sent + ["battery?", "time?"] + Repeat("EXT led 0 255 0", a) + Repeat(Scroll(banner), b)
  {
    var w1 := Unchecked(Blocking, peer, w, ["battery?", "time?"]);
    var green := Retry(Blocking, peer, w1, "EXT led 0 255 0", 3, 0);
    var last := Retry(Blocking, peer, green.after, Scroll(banner), 3, 0);
    var a := |green.after.sent| - |w1.sent|;
    var b := |last.after.sent| - |green.after.sent|;
    assert last.after.sent == w.sent + ["battery?", "time?"] + Repeat("EXT led 0 255 0", a) + Repeat(Scroll(banner), b);
  }

  /** `main`, with the socket closed whatever happened. */
  function Script(peer: Addr, w: Wire, banner: string): (f: Flown)
    ensures !f.after.open
    ensures f.end == Finished || f.end == Declined("command")
  {
    var sdk := Retry(Blocking, peer, w, "command", 3, 0);
    var f := if !sdk.ok then Flown(Declined("command"), sdk.after) else Flown(Finished, Signal(peer, sdk.after, banner));
    Flown(f.end, f.after.(open := false))
  }

  /** Nothing but `command` goes out until the SDK has answered `ok`; then
      the battery and clock queries, the green LED's attempts and the
      banner's attempts, in that order. */
  lemma LightsOnlyAfterSdk(peer: Addr, w: Wire, banner: string)
    ensures var f := Script(peer, w, banner);
      var sdk := Retry(Blocking, peer, w, "command", 3, 0);
      && (!sdk.ok ==> f.end == Declined("command") && f.after.sent == w.sent + Repeat("command", 3))
      && (sdk.ok ==> f.end == Finished)
      && (sdk.ok ==>
            exists a: nat, b: nat ::
              && 1 <= a <= 3 && 1 <= b <= 3
              && f.after.sent == sdk.after.sent + ["battery?", "time?"] + Repeat("EXT led 0 255 0", a) + Repeat(Scroll(banner), b))
  {
    var sdk := Retry(Blocking, peer, w, "command", 3, 0);
    if sdk.ok {
      SignalInOrder(peer, sdk.after, banner);
    }
  }

  /** `main` on a link. */
  method RunScript(link: Link, banner: string) returns (end: Ending)
    modifies link
    ensures Flown(end, link.State()) == Script(link.peer, old(link.State()), banner)
  {
    var ok := SendWithRetry(link, Blocking, "command", 3, 0);
    if !ok {
      end := Declined("command");
    } else {
      UncheckedOn(link, Blocking, ["battery?", "time?"]);
      var _ := SendWithRetry(link, Blocking, "EXT led 0 255 0", 3, 0);
      var _ := SendWithRetry(link, Blocking, Scroll(banner), 3, 0);
      end := Finished;
    }
    link.Close();
  }
}
