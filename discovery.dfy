/** `find_connected_drones` of SearchIPAsync.py: every host `subnet.2` to
    `subnet.254` is pinged at once, and the answers are then read in host
    order, collecting the addresses that answered until `num_drones` of them
    are found. The pings themselves are not modelled: their answers arrive as
    a sequence of booleans, `results[k]` being the answer of host `k + 2`. */
module Discovery {
  import opened Text

  /** The first and the last host number pinged. */
  const FirstHost: nat := 2
  const LastHost: nat := 254

  /** `f"{subnet}.{i}"`. */
  function Address(subnet: string, host: nat): (a: string)
    ensures |a| > |subnet| + 1 && a[..|subnet|] == subnet && a[|subnet|] == '.'
    ensures AllDigits(a[|subnet| + 1..])
  {
    subnet + "." + NatToString(host)
  }

  /** Distinct host numbers give distinct addresses. */
  lemma AddressInjective(subnet: string, a: nat, b: nat)
    ensures Address(subnet, a) == Address(subnet, b) ==> a == b
  {
    if Address(subnet, a) == Address(subnet, b) {
      var n := |subnet| + 1;
      assert Address(subnet, a)[n..] == NatToString(a);
      assert Address(subnet, b)[n..] == NatToString(b);
      NatToStringValue(a);
      NatToStringValue(b);
    }
  }

  /** The addresses of a list of host numbers, in the same order. */
  function Addresses(subnet: string, hosts: seq<nat>): (a: seq<string>)
    ensures |a| == |hosts|
    ensures forall k :: 0 <= k < |hosts| ==> a[k] == Address(subnet, hosts[k])
    decreases |hosts|
  {
    if hosts == [] then [] else [Address(subnet, hosts[0])] + Addresses(subnet, hosts[1..])
  }

  /** The hosts pinged, `range(2, 255)`. */
  function Candidates(): (hosts: seq<nat>)
    ensures |hosts| == LastHost - FirstHost + 1
  {
    seq(LastHost - FirstHost + 1, k => k + FirstHost)
  }

  predicate Ascending(hosts: seq<nat>) {
    forall i, j :: 0 <= i < j < |hosts| ==> hosts[i] < hosts[j]
  }

  /** Addresses of hosts in strictly ascending order are all distinct. */
  lemma AddressesDistinct(subnet: string, hosts: seq<nat>)
    requires Ascending(hosts)
    ensures var a := Addresses(subnet, hosts);
      forall i, j :: 0 <= i < j < |a| ==> a[i] != a[j]
  {
    var a := Addresses(subnet, hosts);
    forall i, j | 0 <= i < j < |a| ensures a[i] != a[j] {
      AddressInjective(subnet, hosts[i], hosts[j]);
    }
  }

  /** The candidates run from `subnet.2` to `subnet.254` in ascending order,
      each address once. */
  lemma CandidatesInOrder(subnet: string)
    ensures var c := Candidates(); c[0] == FirstHost && c[|c| - 1] == LastHost && Ascending(c)
    ensures var a := Addresses(subnet, Candidates());
      forall i, j :: 0 <= i < j < |a| ==> a[i] != a[j]
  {
    var c := Candidates();
    assert forall i :: 0 <= i < |c| ==> c[i] == i + FirstHost;
    AddressesDistinct(subnet, c);
  }

  /** The hosts among `results[k..]` whose ping succeeded, in host order. */
  function SuccessesFrom(results: seq<bool>, k: nat): seq<nat>
    requires k <= |results|
    decreases |results| - k
  {
    if k == |results| then []
    else if results[k] then [k + FirstHost] + SuccessesFrom(results, k + 1)
    else SuccessesFrom(results, k + 1)
  }

  /** `SuccessesFrom` holds exactly the successful hosts from `k` on, each
      in range, in strictly ascending order. */
  lemma {:induction false} SuccessesFromShape(results: seq<bool>, k: nat)
    requires k <= |results|
    ensures var hosts := SuccessesFrom(results, k);
      && (forall i :: 0 <= i < |hosts| ==>
            k + FirstHost <= hosts[i] < |results| + FirstHost && results[hosts[i] - FirstHost])
      && (forall j :: k <= j < |results| && results[j] ==> j + FirstHost in hosts)
      && Ascending(hosts)
    decreases |results| - k
  {
    if k < |results| {
      SuccessesFromShape(results, k + 1);
      var rest := SuccessesFrom(results, k + 1);
      if results[k] {
        var hosts := [k + FirstHost] + rest;
        forall i | 0 <= i < |hosts|
          ensures k + FirstHost <= hosts[i] < |results| + FirstHost && results[hosts[i] - FirstHost]
        {
          if i > 0 { assert hosts[i] == rest[i - 1]; }
        }
        forall j | k <= j < |results| && results[j] ensures j + FirstHost in hosts {
          if j > k { assert j + FirstHost in rest; }
        }
        forall i, j | 0 <= i < j < |hosts| ensures hosts[i] < hosts[j] {
          assert hosts[j] == rest[j - 1];
          if i > 0 { assert hosts[i] == rest[i - 1]; }
        }
      }
    }
  }

  /** The hosts whose ping succeeded. */
  function Successes(results: seq<bool>): seq<nat> {
    SuccessesFrom(results, 0)
  }

  function Min(a: int, b: int): int {
    if a < b then a else b
  }

  /** The collection loop from index `k` on, `found` holding the hosts
      collected so far: a successful host is appended, and after every index,
      successful or not, the loop stops once `num` hosts are in. It never
      ends with fewer hosts than it started with, and adds at most one per
      index. */
  function Collect(results: seq<bool>, k: nat, found: seq<nat>, num: int): (hosts: seq<nat>)
    requires k <= |results|
    ensures |found| <= |hosts| <= |found| + |results| - k
    decreases |results| - k
  {
    if k == |results| then found
    else
      var found' := if results[k] then found + [k + FirstHost] else found;
      if |found'| >= num then found' else Collect(results, k + 1, found', num)
  }

  /** While fewer than `num` hosts are in, the loop appends the next
      successful hosts until it has `num` of them or the results run out. */
  lemma {:induction false} CollectTakes(results: seq<bool>, k: nat, found: seq<nat>, num: int)
    requires k <= |results| && |found| < num
    ensures var s := SuccessesFrom(results, k);
      Collect(results, k, found, num) == found + s[..Min(num - |found|, |s|)]
    decreases |results| - k
  {
    var s := SuccessesFrom(results, k);
    var c := Collect(results, k, found, num);
    if k == |results| {
      assert s == [] && c == found;
      assert c == found + s[..0];
    } else if !results[k] {
      assert s == SuccessesFrom(results, k + 1);
      assert c == Collect(results, k + 1, found, num);
      CollectTakes(results, k + 1, found, num);
    } else {
      var x := k + FirstHost;
      var s' := SuccessesFrom(results, k + 1);
      assert s == [x] + s';
      if |found| + 1 >= num {
        assert c == found + [x];
        assert s[..Min(num - |found|, |s|)] == [x];
      } else {
        assert c == Collect(results, k + 1, found + [x], num);
        CollectTakes(results, k + 1, found + [x], num);
        var m := Min(num - |found| - 1, |s'|);
        assert Min(num - |found|, |s|) == m + 1;
        assert s[..m + 1] == [x] + s'[..m];
        assert c == found + [x] + s'[..m];
      }
    }
  }

  /** For `num_drones` of one or more, the result is the first
      `min(num_drones, successes)` hosts whose ping succeeded. */
  lemma FirstSuccesses(results: seq<bool>, num: int)
    requires num >= 1
    ensures var s := Successes(results);
      Collect(results, 0, [], num) == s[..Min(num, |s|)]
  {
    CollectTakes(results, 0, [], num);
  }

  /** With `num_drones` of zero or less the count test passes at the first
      host already, whose address is returned if it answered: the result is
      never longer than one address, but can be longer than `num_drones`. */
  lemma NonPositiveCount(results: seq<bool>, num: int)
    requires num <= 0 && |results| > 0
    ensures Collect(results, 0, [], num) == if results[0] then [FirstHost] else []
  {
  }

  /** A leading part of the successful hosts is itself in ascending order
      and holds successful hosts only. */
  lemma LeadingSuccesses(results: seq<bool>, n: nat)
    requires n <= |Successes(results)|
    ensures var c := Successes(results)[..n];
      && Ascending(c)
      && forall i :: 0 <= i < |c| ==> FirstHost <= c[i] < |results| + FirstHost && results[c[i] - FirstHost]
  {
    SuccessesFromShape(results, 0);
  }

  /** So whatever `num_drones` is, every host collected answered, and the
      hosts come in strictly ascending order. */
  lemma CollectSound(results: seq<bool>, num: int)
    ensures var c := Collect(results, 0, [], num);
      && Ascending(c)
      && forall i :: 0 <= i < |c| ==> FirstHost <= c[i] < |results| + FirstHost && results[c[i] - FirstHost]
  {
    var c := Collect(results, 0, [], num);
    var s := Successes(results);
    if num >= 1 {
      FirstSuccesses(results, num);
      LeadingSuccesses(results, Min(num, |s|));
    } else if |results| > 0 && results[0] {
      assert s == [FirstHost] + SuccessesFrom(results, 1);
      assert c == s[..1];
      LeadingSuccesses(results, 1);
    }
  }

  /** The collection loop: the pings' answers in, the addresses found out. */
  method FindConnected(results: seq<bool>, num: int, subnet: string) returns (drones: seq<string>)
    ensures drones == Addresses(subnet, Collect(results, 0, [], num))
    ensures num >= 1 ==> var s := Successes(results); drones == Addresses(subnet, s[..Min(num, |s|)])
    ensures forall i, j :: 0 <= i < j < |drones| ==> drones[i] != drones[j]
  {
    drones := [];
    ghost var hosts: seq<nat> := [];
    var k := 0;
    while k < |results|
      invariant k <= |results|
      invariant drones == Addresses(subnet, hosts)
      invariant Collect(results, k, hosts, num) == Collect(results, 0, [], num)
    {
      ghost var before := hosts;
      if results[k] {
        drones := drones + [Address(subnet, k + FirstHost)];
        hosts := hosts + [k + FirstHost];
      }
      if |drones| >= num {
        assert Collect(results, k, before, num) == hosts;
        break;
      }
      k := k + 1;
    }
    if num >= 1 {
      FirstSuccesses(results, num);
    }
    CollectSound(results, num);
    AddressesDistinct(subnet, hosts);
  }
}
