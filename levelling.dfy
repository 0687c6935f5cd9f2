/** Height levelling of tello_multi_height_sync.py and
    HandControl2_WithRetry_Rename_3.py: after takeoff every drone records its
    height, every drone then moves to the lowest recorded height unless it is
    within the tolerance already. */
module Levelling {
  import opened Wrappers
  import opened Text

  /** `ALT_TOLER`: the height difference (cm) left uncorrected. */
  const AltToler := 10

  function Abs(x: int): nat {
    if x < 0 then -x else x
  }

  /** A least recorded height, found by taking one drone at a time. */
  ghost function LeastOf(heights: map<string, int>): (m: int)
    requires heights != map[]
    ensures m in heights.Values && forall ip :: ip in heights ==> m <= heights[ip]
    decreases heights.Keys
  {
    var pick :| pick in heights;
    var others := heights - {pick};
    assert heights[pick] in heights.Values;
    assert heights.Keys == others.Keys + {pick};
    if others == map[] then
      assert heights.Keys == {pick};
      heights[pick]
    else
      var rest := LeastOf(others);
      assert forall ip :: ip in heights ==> ip == pick || ip in others;
      assert rest in heights.Values by {
        var ip :| ip in others && others[ip] == rest;
        assert heights[ip] == rest;
      }
      if heights[pick] < rest then heights[pick] else rest
  }

  /** `min(heights.values())`. */
  function MinHeight(heights: map<string, int>): (m: int)
    requires heights != map[]
    ensures m in heights.Values
    ensures forall ip :: ip in heights ==> m <= heights[ip]
  {
    assert forall ip :: ip in heights ==> heights[ip] in heights.Values;
    var least := LeastOf(heights);
    var m :| m in heights.Values && forall v :: v in heights.Values ==> m <= v;
    m
  }

  /** `min(heights.values()) if heights else my_h or 0`. */
  function Target(heights: map<string, int>, myH: Option<int>): (t: int)
    ensures heights != map[] ==> t in heights.Values && forall ip :: ip in heights ==> t <= heights[ip]
    ensures heights == map[] && myH.None? ==> t == 0
    ensures heights == map[] && myH.Some? ==> t == myH.value
  {
    if heights != map[] then MinHeight(heights)
    else if myH.Some? then myH.value
    else 0
  }

  /** The correction a drone at height `h` sends towards `target`: `up` when it
      is too low, `down` when too high, by the whole difference; nothing within
      the tolerance, a difference of exactly 10 included. */
  function Correction(target: int, h: int): (c: Option<string>)
    ensures c.Some? <==> Abs(target - h) > AltToler
  {
    var diff := target - h;
    if Abs(diff) > AltToler then
      Some((if diff > 0 then "up" else "down") + " " + NatToString(Abs(diff)))
    else None
  }

  /** Where the Tello SDK's `up n` / `down n` takes a drone at height `h`. */
  function Moved(h: int, cmd: string): Option<int> {
    if |cmd| > 3 && cmd[..3] == "up " then
      match ParseInt(cmd[3..])
      case Some(n) => Some(h + n)
      case None => None
    else if |cmd| > 5 && cmd[..5] == "down " then
      match ParseInt(cmd[5..])
      case Some(n) => Some(h - n)
      case None => None
    else None
  }

  /** Carrying out a correction lands the drone exactly on the target. */
  lemma CorrectionReachesTarget(target: int, h: int)
    requires Correction(target, h).Some?
    ensures Moved(h, Correction(target, h).value) == Some(target)
  {
    var diff := target - h;
    var amount := NatToString(Abs(diff));
    ParseIntRoundTrip(Abs(diff));
    assert IntToString(Abs(diff)) == amount;
    var c := Correction(target, h).value;
    if diff > 0 {
      assert c == "up " + amount;
      assert c[..3] == "up " && c[3..] == amount;
    } else {
      assert c == "down " + amount;
      assert c[..3] == "dow";
      assert c[..5] == "down " && c[5..] == amount;
    }
  }

  /** A drone whose own height is recorded is never above the target: its
      correction, if any, is always `down`. */
  lemma NeverUp(heights: map<string, int>, ip: string)
    requires ip in heights
    ensures Target(heights, Some(heights[ip])) <= heights[ip]
    ensures var c := Correction(Target(heights, Some(heights[ip])), heights[ip]);
      c.None? || (|c.value| > 5 && c.value[..5] == "down ")
  {
    var c := Correction(Target(heights, Some(heights[ip])), heights[ip]);
    if c.Some? {
      assert c.value == "down " + NatToString(Abs(Target(heights, Some(heights[ip])) - heights[ip]));
    }
  }

  /** Three drones at 120, 95 and 110 cm level at 95: the first goes down 25,
      the second stays, the third goes down 15. */
  lemma ThreeDroneExample()
    ensures var heights := map["A" := 120, "B" := 95, "C" := 110];
      && Target(heights, Some(120)) == 95
      && Correction(95, 120) == Some("down 25")
      && Correction(95, 95) == None
      && Correction(95, 110) == Some("down 15")
  {
    var heights := map["A" := 120, "B" := 95, "C" := 110];
    var t := Target(heights, Some(120));
    assert t in heights.Values;
    assert t <= heights["B"];
    assert t == 95;
    assert NatToString(25) == NatToString(2) + [DigitChar(5)] == "25";
    assert NatToString(15) == NatToString(1) + [DigitChar(5)] == "15";
    assert Correction(95, 120) == Some("down" + " " + NatToString(25));
    assert Correction(95, 110) == Some("down" + " " + NatToString(15));
    assert "down" + " " + "25" == "down 25";
    assert "down" + " " + "15" == "down 15";
  }

  /** The `heights` dictionary all drone sessions write into. */
  class HeightBoard {
    var heights: map<string, int>

    constructor ()
      ensures heights == map[]
    {
      heights := map[];
    }

    /** `heights[ip] = my_h`, done only when a height was measured. */
    method Record(ip: string, h: Option<int>)
      modifies this
      ensures heights == if h.Some? then old(heights)[ip := h.value] else old(heights)
    {
      if h.Some? {
        heights := heights[ip := h.value];
      }
    }

    /** The target read off the board. */
    function TargetFor(myH: Option<int>): (t: int)
      reads this
      ensures heights != map[] ==> t in heights.Values && forall ip :: ip in heights ==> t <= heights[ip]
      ensures heights == map[] ==> t == if myH.Some? then myH.value else 0
    {
      Target(heights, myH)
    }
  }
}
