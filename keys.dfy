/** The keyboard side of the control loops: which keys exist, what each
    binding does, and which binding a first-match `if/elif` chain picks. */
module Keys {
  import opened Wrappers

  /** The keys the scripts poll with `keyboard.is_pressed`. */
  datatype Key = W | S | A | D | Up | Down | Q | E | B | Space | P | L | Left | Right

  /** What a pressed key makes a script do.
      - `Send`: the command through the script's usual path
        (`send_with_retry`, or `send_command` where there is no retry).
      - `Query`: one `send_command` whose reply is only printed.
      - `GatedFlip`: a `battery?` reading, then `flip f` only at 60 % or more.
      - `Scenario`: several commands in order, each on the usual path.
      - `Land`: `land` on the usual path, then the loop ends. */
  datatype Action =
    | Send(cmd: string)
    | Query(cmd: string)
    | GatedFlip
    | Scenario(cmds: seq<string>)
    | Land

  /** One `if keyboard.is_pressed(key): ...` branch, with the sleep that
      follows its action inside the branch (0 when there is none). */
  datatype Binding = Binding(key: Key, action: Action, pause: nat)

  /** The branch an `if/elif` chain takes: the first binding whose key is
      pressed, or none. */
  function FirstPressed(bindings: seq<Binding>, pressed: set<Key>): (i: Option<nat>)
    ensures i.Some? ==> i.value < |bindings| && bindings[i.value].key in pressed
    ensures i.Some? ==> forall j :: 0 <= j < i.value ==> bindings[j].key !in pressed
    ensures i.None? <==> forall j :: 0 <= j < |bindings| ==> bindings[j].key !in pressed
    decreases |bindings|
  {
    if bindings == [] then None
    else if bindings[0].key in pressed then Some(0)
    else
      match FirstPressed(bindings[1..], pressed)
      case None => None
      case Some(k) => Some(k + 1)
  }

  /** The movement and turn branches every chain starts with, in this order:
      `MOVE_DIST` is 50 cm and `TURN_ANGLE` 60 degrees. */
  const Moves: seq<Binding> := [
    Binding(W, Send("forward 50"), 0), Binding(S, Send("back 50"), 0),
    Binding(A, Send("left 50"), 0), Binding(D, Send("right 50"), 0),
    Binding(Up, Send("up 50"), 0), Binding(Down, Send("down 50"), 0),
    Binding(Q, Send("ccw 60"), 0), Binding(E, Send("cw 60"), 0)]

  /** Keys of later branches held down with the key of branch `i` do not
      change which branch the chain takes. */
  lemma {:induction false} LaterKeysIgnored(bindings: seq<Binding>, i: nat, later: set<Key>)
    requires i < |bindings|
    requires forall j :: 0 <= j <= i ==> bindings[j].key !in later
    ensures FirstPressed(bindings, {bindings[i].key} + later) == FirstPressed(bindings, {bindings[i].key})
    decreases i
  {
    var k := bindings[i].key;
    if bindings[0].key != k {
      var tail := bindings[1..];
      assert tail[i - 1] == bindings[i];
      forall j | 0 <= j <= i - 1 ensures tail[j].key !in later {
        assert tail[j] == bindings[j + 1];
      }
      LaterKeysIgnored(tail, i - 1, later);
    }
  }

  /** A chain whose first branches are not pressed takes the branch the rest
      of it would take, shifted. */
  lemma {:induction false} FirstPressedAfter(front: seq<Binding>, back: seq<Binding>, pressed: set<Key>)
    requires forall j :: 0 <= j < |front| ==> front[j].key !in pressed
    ensures FirstPressed(front + back, pressed)
      == match FirstPressed(back, pressed) case None => None case Some(i) => Some(|front| + i)
    decreases |front|
  {
    if front == [] {
      assert front + back == back;
    } else {
      assert (front + back)[0] == front[0];
      assert (front + back)[1..] == front[1..] + back;
      forall j | 0 <= j < |front[1..]| ensures front[1..][j].key !in pressed {
        assert front[1..][j] == front[j + 1];
      }
      FirstPressedAfter(front[1..], back, pressed);
    }
  }
}
