/** ConnectToWifi.py: SDK mode on any non-empty reply, then the `ap` command
    that makes the drone join a Wi-Fi network, retried with a 1 s delay, then
    one battery reading whose result is only printed. The `except` sends
    `emergency_land`; the `finally` closes the socket. */
module ConnectToWifi {
  import opened Wrappers
  import opened Transport
  import opened Reliable
  import opened Readings
  import opened Chains

  /** The Tello SDK's `ap ssid pass`. */
  function JoinCommand(ssid: string, key: string): (c: string)
    ensures |c| >= 3 && c[..3] == "ap "
  {
    "ap " + ssid + " " + key
  }

  /** After SDK mode: joining the network, then the battery reading, whose
      `TypeError` on a failed receive (`send_command` returns `None`) is
      caught by the `except`. */
  function Join(peer: Addr, w: Wire, ap: string): (f: Flown)
    ensures f.after.open == w.open
  {
    var j := Retry(Blocking, peer, w, ap, 3, 1000);
    if !j.ok then Flown(Declined(ap), j.after)
    else
      var b := Exchange(Blocking, peer, j.after, "battery?");
      if BatteryStrict(b.reply) == Raised then Flown(Handled, EmergencyLanding(b.after))
      else Flown(Finished, b.after)
  }

  /** `main`, with the socket closed whatever happened. */
  function Script(peer: Addr, w: Wire, ssid: string, key: string): (f: Flown)
    ensures !f.after.open
  {
    var h := Exchange(Blocking, peer, w, "command");
    var f := if !Truthy(h.reply) then Flown(Declined("command"), h.after)
             else Join(peer, h.after, JoinCommand(ssid, key));
    Flown(f.end, f.after.(open := false))
  }

  /** The steps run in order, each only after the previous one: no `ap`
      without a non-empty SDK reply, no battery reading without an `ok` to
      `ap`, and the emergency landing is the last thing sent exactly when the
      battery query got no reply. */
  lemma StepsInOrder(peer: Addr, w: Wire, ssid: string, key: string)
    ensures var ap := JoinCommand(ssid, key);
      var f := Script(peer, w, ssid, key);
      var h := Exchange(Blocking, peer, w, "command");
      var j := Retry(Blocking, peer, h.after, ap, 3, 1000);
      && (!Truthy(h.reply) ==> f.end == Declined("command") && f.after.sent == w.sent + ["command"])
      && (Truthy(h.reply) && !j.ok ==> f.end == Declined(ap) && f.after.sent == w.sent + ["command"] + Repeat(ap, 3))
      && (Truthy(h.reply) && j.ok ==>
            var b := Exchange(Blocking, peer, j.after, "battery?");
            && f.end == (if b.reply.None? then Handled else Finished)
            && f.after.sent == j.after.sent + (if b.reply.None? then ["battery?", "land"] else ["battery?"]))
  {
    var h := Exchange(Blocking, peer, w, "command");
    var j := Retry(Blocking, peer, h.after, JoinCommand(ssid, key), 3, 1000);
    if Truthy(h.reply) && !j.ok {
      assert JoinCommand(ssid, key) != "command" by {
        assert JoinCommand(ssid, key)[0] == 'a';
      }
    }
  }

  /** `main` on a link. */
  method RunScript(link: Link, ssid: string, key: string) returns (end: Ending)
    modifies link
    ensures Flown(end, link.State()) == Script(link.peer, old(link.State()), ssid, key)
  {
    var resp := link.SendCommand(Blocking, "command");
    if !Truthy(resp) {
      end := Declined("command");
    } else {
      var ap := JoinCommand(ssid, key);
      var ok := SendWithRetry(link, Blocking, ap, 3, 1000);
      if !ok {
        end := Declined(ap);
      } else {
        resp := link.SendCommand(Blocking, "battery?");
        if BatteryStrict(resp) == Raised {
          link.EmergencyLand();
          end := Handled;
        } else {
          end := Finished;
        }
      }
    }
    link.Close();
  }
}
