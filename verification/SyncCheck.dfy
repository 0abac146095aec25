/** shared/pocket/sync-check.go: which nodes of a session count as in sync. */
module SyncCheck {

  datatype NodeLog = NodeLog(publicKey: string, height: int)

  predicate Valid(n: NodeLog) {
    n.height > 0
  }

  predicate Descending(logs: seq<NodeLog>) {
    forall i, j | 0 <= i < j < |logs| :: logs[i].height >= logs[j].height
  }

  function Select(logs: seq<NodeLog>, p: NodeLog -> bool): seq<NodeLog> {
    if logs == [] then []
    else
      var n := |logs| - 1;
      if p(logs[n]) then Select(logs[..n], p) + [logs[n]] else Select(logs[..n], p)
  }

  function PublicKeys(logs: seq<NodeLog>): seq<string> {
    if logs == [] then [] else PublicKeys(logs[..|logs| - 1]) + [logs[|logs| - 1].publicKey]
  }

  function Highest(logs: seq<NodeLog>): (h: int)
    requires logs != []
    ensures exists i :: 0 <= i < |logs| && logs[i].height == h
    ensures forall i | 0 <= i < |logs| :: logs[i].height <= h
  {
    var n := |logs| - 1;
    if n == 0 then logs[0].height
    else
      var h := Highest(logs[..n]);
      assert exists i :: 0 <= i < n && logs[..n][i].height == h && logs[i].height == h;
      assert forall i | 0 <= i < n :: logs[i].height == logs[..n][i].height;
      if logs[n].height > h then logs[n].height else h
  }

  /** Go's integer division of the two counts, before the cast to a float. */
  function AheadRatio(logs: seq<NodeLog>, altruist: int): int {
    var valid := |Select(logs, Valid)|;
    |Select(logs, (n: NodeLog) => n.height > altruist)| / (if valid <= 0 then 1 else valid)
  }

  datatype Verdict = Verdict(altruist: int, highest: int, trusted: bool)

  /** The three results of getAltruistDataAndHighestBlockHeight. */
  function Judge(logs: seq<NodeLog>, altruist: int, allowance: int, threshold: real): Verdict
    requires logs != []
  {
    var highest := Highest(logs);
    var trusted := AheadRatio(logs, altruist) as real < threshold;
    if !trusted then Verdict(highest, highest, false)
    else if highest > altruist + allowance then Verdict(altruist, altruist, true)
    else Verdict(altruist, highest, true)
  }

  /** The test of the final loop. */
  predicate Passes(v: Verdict, allowance: int, height: int) {
    && height > 0
    && height <= (if v.trusted then v.altruist else v.highest) + allowance
    && height + allowance >= v.highest
    && height + allowance >= v.altruist
  }

  /** sort.Slice by descending height: any result allowed by this contract, ties in any order. */
  method SortByHeight(a: array<NodeLog>)
    modifies a
    ensures Descending(a[..])
    ensures multiset(a[..]) == multiset(old(a[..]))
  {
    for i := 0 to a.Length
      invariant forall m, n | 0 <= m < i && m < n < a.Length :: a[m].height >= a[n].height
      invariant multiset(a[..]) == multiset(old(a[..]))
    {
      var top := i;
      for j := i + 1 to a.Length
        invariant i <= top < a.Length
        invariant forall n | i <= n < j :: a[n].height <= a[top].height
      {
        if a[j].height > a[top].height {
          top := j;
        }
      }
      a[i], a[top] := a[top], a[i];
    }
  }

  method CountValid(a: array<NodeLog>) returns (count: nat)
    ensures count == |Select(a[..], Valid)|
  {
    count := 0;
    for i := 0 to a.Length
      invariant count == |Select(a[..i], Valid)|
    {
      assert a[..i + 1][..i] == a[..i];
      if a[i].height > 0 {
        count := count + 1;
      }
    }
    assert a[..a.Length] == a[..];
  }

  method CountAhead(a: array<NodeLog>, altruist: int) returns (count: nat)
    ensures count == |Select(a[..], (n: NodeLog) => n.height > altruist)|
  {
    count := 0;
    ghost var p := (n: NodeLog) => n.height > altruist;
    for i := 0 to a.Length
      invariant count == |Select(a[..i], p)|
    {
      assert a[..i + 1][..i] == a[..i];
      if a[i].height > altruist {
        count := count + 1;
      }
    }
    assert a[..a.Length] == a[..];
  }

  lemma FirstIsHighest(logs: seq<NodeLog>)
    requires logs != [] && Descending(logs)
    ensures Highest(logs) == logs[0].height
  {
  }

  method GetAltruistDataAndHighestBlockHeight(a: array<NodeLog>, altruist: int, allowance: int, threshold: real)
    returns (altruistHeight: int, highest: int, trusted: bool)
    requires a.Length > 0 && Descending(a[..])
    ensures Verdict(altruistHeight, highest, trusted) == Judge(a[..], altruist, allowance, threshold)
  {
    var validNodes := CountValid(a);
    highest := a[0].height;
    FirstIsHighest(a[..]);
    altruistHeight := altruist;
    var ahead := CountAhead(a, altruist);
    var divisionValidNodes := if validNodes <= 0 then 1 else validNodes;
    trusted := (ahead / divisionValidNodes) as real < threshold;
    if !trusted {
      altruistHeight := highest;
    }
    if trusted && highest > altruistHeight + allowance {
      highest := altruistHeight;
    }
  }

  /** Check, from the gathered logs on. `accepted` names the logs behind the public keys returned. */
  method Check(a: array<NodeLog>, altruist: int, requestedAllowance: int, defaultAllowance: int, threshold: real)
    returns (checkedNodes: seq<string>, ghost accepted: seq<NodeLog>)
    requires a.Length > 0
    modifies a
    ensures |checkedNodes| == |accepted| && Descending(accepted)
    ensures forall i | 0 <= i < |accepted| :: checkedNodes[i] == accepted[i].publicKey
    ensures
      var logs, allowance := old(a[..]), if requestedAllowance == 0 then defaultAllowance else requestedAllowance;
      var v := Judge(logs, altruist, allowance, threshold);
      forall n :: multiset(accepted)[n] == if Passes(v, allowance, n.height) then multiset(logs)[n] else 0
  {
    ghost var logs := a[..];
    var allowance := if requestedAllowance == 0 then defaultAllowance else requestedAllowance;
    SortByHeight(a);
    ghost var sorted := a[..];
    var altruistHeight, highest, trusted := GetAltruistDataAndHighestBlockHeight(a, altruist, allowance, threshold);
    ghost var v := Verdict(altruistHeight, highest, trusted);
    ghost var p := (n: NodeLog) => Passes(v, allowance, n.height);
    JudgeIgnoresOrder(logs, sorted, altruist, allowance, threshold);
    assert Select(sorted[..0], p) == [] && PublicKeys([]) == [];
    hide Judge, Descending, Select, PublicKeys;
    var maxAllowed := if trusted then altruistHeight + allowance else highest + allowance;
    checkedNodes := [];
    accepted := [];
    for i := 0 to a.Length
      invariant a[..] == sorted
      invariant accepted == Select(sorted[..i], p) && checkedNodes == PublicKeys(accepted)
    {
      SelectNext(sorted, i, p);
      PublicKeysNext(accepted, sorted[i]);
      var height := a[i].height;
      var allowanceHeight := height + allowance;
      var isValidNode := height <= maxAllowed && allowanceHeight >= highest && allowanceHeight >= altruistHeight;
      if height <= 0 {
        continue;
      }
      if !isValidNode {
        continue;
      }
      checkedNodes := checkedNodes + [a[i].publicKey];
      accepted := accepted + [a[i]];
    }
    assert sorted[..a.Length] == sorted;
    SelectDescending(sorted, p);
    PublicKeysAre(accepted);
    forall n ensures multiset(accepted)[n] == if Passes(v, allowance, n.height) then multiset(logs)[n] else 0 {
      SelectCounts(sorted, p, n);
    }
  }

  lemma SelectNext(logs: seq<NodeLog>, i: nat, p: NodeLog -> bool)
    requires i < |logs|
    ensures Select(logs[..i + 1], p) == if p(logs[i]) then Select(logs[..i], p) + [logs[i]] else Select(logs[..i], p)
  {
    assert logs[..i + 1][..i] == logs[..i];
  }

  lemma {:induction false} PublicKeysAre(logs: seq<NodeLog>)
    ensures |PublicKeys(logs)| == |logs| && forall i | 0 <= i < |logs| :: PublicKeys(logs)[i] == logs[i].publicKey
  {
    if logs != [] {
      PublicKeysAre(logs[..|logs| - 1]);
    }
  }

  lemma PublicKeysNext(logs: seq<NodeLog>, n: NodeLog)
    ensures PublicKeys(logs + [n]) == PublicKeys(logs) + [n.publicKey]
  {
    assert (logs + [n])[..|logs|] == logs;
  }

  lemma {:induction false} SelectCounts(logs: seq<NodeLog>, p: NodeLog -> bool, n: NodeLog)
    ensures multiset(Select(logs, p))[n] == if p(n) then multiset(logs)[n] else 0
  {
    if logs != [] {
      var m := |logs| - 1;
      assert logs == logs[..m] + [logs[m]];
      SelectCounts(logs[..m], p, n);
    }
  }

  lemma {:induction false} SelectDescending(logs: seq<NodeLog>, p: NodeLog -> bool)
    requires Descending(logs)
    ensures Descending(Select(logs, p))
    ensures forall n | n in Select(logs, p) :: n in logs
  {
    if logs != [] {
      var m := |logs| - 1;
      SelectDescending(logs[..m], p);
      assert forall n | n in logs[..m] :: n.height >= logs[m].height;
    }
  }

  lemma SelectIgnoresOrder(a: seq<NodeLog>, b: seq<NodeLog>, p: NodeLog -> bool)
    requires multiset(a) == multiset(b)
    ensures multiset(Select(a, p)) == multiset(Select(b, p)) && |Select(a, p)| == |Select(b, p)|
  {
    forall n ensures multiset(Select(a, p))[n] == multiset(Select(b, p))[n] {
      SelectCounts(a, p, n);
      SelectCounts(b, p, n);
    }
    assert |multiset(Select(a, p))| == |Select(a, p)|;
    assert |multiset(Select(b, p))| == |Select(b, p)|;
  }

  /** The verdict depends on the collected heights, not on the order of the logs. */
  lemma JudgeIgnoresOrder(a: seq<NodeLog>, b: seq<NodeLog>, altruist: int, allowance: int, threshold: real)
    requires a != [] && multiset(a) == multiset(b)
    ensures b != [] && Judge(a, altruist, allowance, threshold) == Judge(b, altruist, allowance, threshold)
  {
    assert |multiset(a)| == |a| && |multiset(b)| == |b|;
    SelectIgnoresOrder(a, b, Valid);
    SelectIgnoresOrder(a, b, (n: NodeLog) => n.height > altruist);
    HighestOfMultiset(a, b);
    HighestOfMultiset(b, a);
  }

  lemma HighestOfMultiset(a: seq<NodeLog>, b: seq<NodeLog>)
    requires a != [] && b != [] && multiset(a) == multiset(b)
    ensures Highest(a) <= Highest(b)
  {
    var i :| 0 <= i < |a| && a[i].height == Highest(a);
    assert a[i] in multiset(a);
    assert a[i] in b;
  }
}
