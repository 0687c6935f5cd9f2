/** What the straight-line flight scripts share: the truthiness test on a
    reply, commands whose replies are ignored, and the nested
    `if send_with_retry(step): ...` chain that stops at the first failure. */
module Chains {
  import opened Wrappers
  import opened Transport
  import opened Reliable

  /** `if send_command(...)`: any reply except none and the empty string, so
      an `error` reply passes as well as `ok`. */
  predicate Truthy(reply: Option<string>): (t: bool)
    ensures t ==> reply.Some?
    ensures reply == Some(Ok) ==> t
    ensures reply == Some("error") ==> t
    ensures reply == Some("") ==> !t
  {
    reply.Some? && reply.value != ""
  }

  /** How a flight script ended.
      - `Finished`: its last step ran.
      - `Declined(step)`: the step named failed and its `else` ended the script.
      - `Handled`: an exception was caught by the script's `except`.
      - `Escaped`: an exception left the script altogether. */
  datatype Ending = Finished | Declined(step: string) | Handled | Escaped

  /** A script's ending with its socket afterwards. */
  datatype Flown = Flown(end: Ending, after: Wire)

  /** Plain `send_command` calls in order, their replies ignored. */
  function Unchecked(r: Receiver, peer: Addr, w: Wire, cmds: seq<string>): (w': Wire)
    ensures w'.sent == w.sent + cmds && w'.open == w.open
    decreases |cmds|
  {
    if cmds == [] then w
    else
      var w1 := Exchange(r, peer, w, cmds[0]).after;
      assert w.sent + [cmds[0]] + cmds[1..] == w.sent + cmds;
      Unchecked(r, peer, w1, cmds[1..])
  }

  /** From `w` to `w'` the socket only gained commands, all of them in `allowed`. */
  predicate SendsOnly(w: Wire, w': Wire, allowed: set<string>) {
    w.sent <= w'.sent && forall s :: s in w'.sent[|w.sent|..] ==> s in allowed
  }

  /** A command outside `allowed` is not among those sent. */
  lemma NeverSent(w: Wire, w': Wire, allowed: set<string>, cmd: string)
    requires SendsOnly(w, w', allowed) && cmd !in allowed
    ensures cmd !in w'.sent[|w.sent|..]
  {
  }

  /** Two spans of sending make one. */
  lemma SendsOnlyThen(w1: Wire, w2: Wire, w3: Wire, a: set<string>, b: set<string>)
    requires SendsOnly(w1, w2, a) && SendsOnly(w2, w3, b)
    ensures SendsOnly(w1, w3, a + b)
  {
    assert w3.sent[|w1.sent|..] == w2.sent[|w1.sent|..] + w3.sent[|w2.sent|..];
  }

  /** Repeated attempts at one command send only that command. */
  lemma RepeatSendsOnly(w: Wire, w': Wire, cmd: string)
    requires |w.sent| <= |w'.sent| && w'.sent == w.sent + Repeat(cmd, |w'.sent| - |w.sent|)
    ensures SendsOnly(w, w', {cmd})
  {
    assert w'.sent[|w.sent|..] == Repeat(cmd, |w'.sent| - |w.sent|);
  }

  /** How far a chain got: the number of steps that succeeded. */
  datatype Reached = Reached(done: nat, after: Wire)

  function Min(a: int, b: int): int {
    if a < b then a else b
  }

  /** Nested `if send_with_retry(step)`: each step is tried only after the
      previous one succeeded. Nothing is sent but the steps up to the first
      failing one. */
  function Chain(r: Receiver, peer: Addr, w: Wire, steps: seq<string>, retries: int, delay: nat): (c: Reached)
    ensures c.done <= |steps| && c.after.open == w.open && w.sent <= c.after.sent
    ensures forall s :: s in c.after.sent[|w.sent|..] ==> s in steps[..Min(c.done + 1, |steps|)]
    decreases |steps|
  {
    if steps == [] then Reached(0, w)
    else
      var o := Retry(r, peer, w, steps[0], retries, delay);
      if !o.ok then
        assert o.after.sent[|w.sent|..] == Repeat(steps[0], |o.after.sent| - |w.sent|);
        Reached(0, o.after)
      else
        var rest := Chain(r, peer, o.after, steps[1..], retries, delay);
        ChainSentSplit(w.sent, o.after.sent, rest.after.sent, steps, rest.done);
        Reached(rest.done + 1, rest.after)
  }

  /** The bookkeeping of one successful step: the first step's attempts, then
      what the rest of the chain sent. */
  lemma ChainSentSplit(s0: seq<string>, s1: seq<string>, s2: seq<string>, steps: seq<string>, done: nat)
    requires steps != [] && done <= |steps| - 1 && s0 <= s1 <= s2
    requires s1 == s0 + Repeat(steps[0], |s1| - |s0|)
    requires forall s :: s in s2[|s1|..] ==> s in steps[1..][..Min(done + 1, |steps| - 1)]
    ensures s0 <= s2
    ensures forall s :: s in s2[|s0|..] ==> s in steps[..Min(done + 2, |steps|)]
  {
    assert s2[|s0|..] == s1[|s0|..] + s2[|s1|..];
    assert s1[|s0|..] == Repeat(steps[0], |s1| - |s0|);
    assert steps[1..][..Min(done + 1, |steps| - 1)] == steps[1..Min(done + 2, |steps|)];
    assert steps[..Min(done + 2, |steps|)] == [steps[0]] + steps[1..Min(done + 2, |steps|)];
  }

  /** A chain that stopped short ends with the failing step's `retries`
      attempts; one that got through ended on an `ok`. */
  lemma {:induction false} ChainStopsAtFailure(r: Receiver, peer: Addr, w: Wire, steps: seq<string>, retries: nat, delay: nat)
    ensures var c := Chain(r, peer, w, steps, retries, delay);
      c.done < |steps| ==>
        |c.after.sent| >= |w.sent| + retries
        && c.after.sent[|c.after.sent| - retries..] == Repeat(steps[c.done], retries)
    decreases |steps|
  {
    if steps != [] {
      var o := Retry(r, peer, w, steps[0], retries, delay);
      if !o.ok {
        assert o.after.sent[|o.after.sent| - retries..] == Repeat(steps[0], retries);
      } else {
        ChainStopsAtFailure(r, peer, o.after, steps[1..], retries, delay);
      }
    }
  }

  /** The chain on a link: a loop over the steps that breaks at the first
      failure, which is what the nesting of `if`s amounts to. */
  method ChainOn(link: Link, r: Receiver, steps: seq<string>, retries: int, delay: nat) returns (done: nat)
    modifies link
    ensures Reached(done, link.State()) == Chain(r, link.peer, old(link.State()), steps, retries, delay)
  {
    done := 0;
    while done < |steps|
      invariant done <= |steps|
      invariant var rest := Chain(r, link.peer, link.State(), steps[done..], retries, delay);
        Reached(done + rest.done, rest.after) == Chain(r, link.peer, old(link.State()), steps, retries, delay)
      decreases |steps| - done
    {
      assert steps[done..][1..] == steps[done + 1..];
      var ok := SendWithRetry(link, r, steps[done], retries, delay);
      if !ok {
        return;
      }
      done := done + 1;
    }
  }

  /** Plain sends on a link. */
  method UncheckedOn(link: Link, r: Receiver, cmds: seq<string>)
    modifies link
    ensures link.State() == Unchecked(r, link.peer, old(link.State()), cmds)
  {
    for i := 0 to |cmds|
      invariant Unchecked(r, link.peer, link.State(), cmds[i..]) == Unchecked(r, link.peer, old(link.State()), cmds)
    {
      assert cmds[i..][1..] == cmds[i + 1..];
      var _ := link.SendCommand(r, cmds[i]);
    }
  }
}
