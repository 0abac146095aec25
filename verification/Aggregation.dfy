/** store.go, aggregateRegionData: one session row rebuilt from the region rows of its session. */
module Aggregation {
  import opened Wrappers
  import opened Averages
  import opened Tables

  /** Everything a session summary depends on, added up row by row. */
  datatype Tally = Tally(success: int, failures: int, failed: bool, latency: real, samples: nat) {
    function Add(t: Tally): Tally {
      Tally(success + t.success, failures + t.failures, failed || t.failed, latency + t.latency, samples + t.samples)
    }
  }

  function RowTally(row: RegionRow): Tally {
    Tally(row.totalSuccess, row.totalFailure, row.failure, Sum(row.medianLatency), |row.medianLatency|)
  }

  function TallyOf(rows: seq<RegionRow>): Tally {
    if rows == [] then Tally(0, 0, false, 0.0, 0) else RowTally(rows[0]).Add(TallyOf(rows[1..]))
  }

  /** The session row the README promises: sums, OR, and the mean of all median samples of all regions. */
  function Summarize(rows: seq<RegionRow>): Summary {
    var t := TallyOf(rows);
    Summary(t.success, t.failures, if t.samples == 0 then None else Some(t.latency / t.samples as real), t.failed)
  }

  lemma AddAssociative(x: Tally, y: Tally, z: Tally)
    ensures x.Add(y.Add(z)) == x.Add(y).Add(z)
  {
  }

  lemma {:induction false} TallyAppend(a: seq<RegionRow>, b: seq<RegionRow>)
    ensures TallyOf(a + b) == TallyOf(a).Add(TallyOf(b))
  {
    if a == [] {
      assert a + b == b;
    } else {
      var x, y, z := RowTally(a[0]), TallyOf(a[1..]), TallyOf(b);
      assert TallyOf(a + b) == x.Add(TallyOf(a[1..] + b)) by { assert (a + b)[1..] == a[1..] + b; }
      assert TallyOf(a[1..] + b) == y.Add(z) by { TallyAppend(a[1..], b); }
      AddAssociative(x, y, z);
    }
  }

  /** The median samples of all rows, one row after the other. */
  function AllSamples(rows: seq<RegionRow>): seq<real> {
    if rows == [] then [] else rows[0].medianLatency + AllSamples(rows[1..])
  }

  lemma {:induction false} TallyMeans(rows: seq<RegionRow>)
    ensures TallyOf(rows).success == IntSum(seq(|rows|, i requires 0 <= i < |rows| => rows[i].totalSuccess))
    ensures TallyOf(rows).failures == IntSum(seq(|rows|, i requires 0 <= i < |rows| => rows[i].totalFailure))
    ensures TallyOf(rows).failed <==> exists i :: 0 <= i < |rows| && rows[i].failure
    ensures TallyOf(rows).latency == Sum(AllSamples(rows)) && TallyOf(rows).samples == |AllSamples(rows)|
  {
    if rows != [] {
      var rest := rows[1..];
      TallyMeans(rest);
      assert seq(|rows|, i requires 0 <= i < |rows| => rows[i].totalSuccess)[1..]
        == seq(|rest|, i requires 0 <= i < |rest| => rest[i].totalSuccess);
      assert seq(|rows|, i requires 0 <= i < |rows| => rows[i].totalFailure)[1..]
        == seq(|rest|, i requires 0 <= i < |rest| => rest[i].totalFailure);
      SumAppend(rows[0].medianLatency, AllSamples(rest));
      assert forall i | 0 < i < |rows| :: rows[i] == rest[i - 1];
    }
  }

  /** A summary column by column: the two sums, the OR, and the mean of all median samples. */
  lemma SummarizeMeans(rows: seq<RegionRow>)
    ensures var session := Summarize(rows);
      && session.totalSuccess == IntSum(seq(|rows|, i requires 0 <= i < |rows| => rows[i].totalSuccess))
      && session.totalFailure == IntSum(seq(|rows|, i requires 0 <= i < |rows| => rows[i].totalFailure))
      && (session.failure <==> exists i :: 0 <= i < |rows| && rows[i].failure)
      && session.averageSuccessTime == Mean(AllSamples(rows))
  {
    TallyMeans(rows);
    hide TallyOf;
  }

  /** The loops of aggregateRegionData over the rows the query returned. */
  method RebuildSession(rows: seq<RegionRow>) returns (session: Summary)
    ensures session == Summarize(rows)
    ensures session.totalSuccess == IntSum(seq(|rows|, i requires 0 <= i < |rows| => rows[i].totalSuccess))
    ensures session.totalFailure == IntSum(seq(|rows|, i requires 0 <= i < |rows| => rows[i].totalFailure))
    ensures session.failure <==> exists i :: 0 <= i < |rows| && rows[i].failure
    ensures session.averageSuccessTime == Mean(AllSamples(rows))
  {
    var totalSuccess, totalFailure, failure := 0, 0, false;
    var avgSuccessTimes: seq<real> := [];
    for i := 0 to |rows|
      invariant TallyOf(rows[..i]) ==
        Tally(totalSuccess, totalFailure, failure, Sum(avgSuccessTimes), |avgSuccessTimes|)
    {
      assert rows[..i + 1] == rows[..i] + [rows[i]];
      TallyAppend(rows[..i], [rows[i]]);
      assert [rows[i]][1..] == [];
      SumAppend(avgSuccessTimes, rows[i].medianLatency);
      totalSuccess := totalSuccess + rows[i].totalSuccess;
      totalFailure := totalFailure + rows[i].totalFailure;
      failure := failure || rows[i].failure;
      avgSuccessTimes := avgSuccessTimes + rows[i].medianLatency;
    }
    assert rows[..|rows|] == rows;
    var averageSuccessTime := GetSliceAvg(avgSuccessTimes);
    session := Summary(totalSuccess, totalFailure, averageSuccessTime, failure);
    SummarizeMeans(rows);
  }

  /** One goroutine of aggregateRegionData, with nobody in between: read the rows, rebuild, write. */
  method AggregateSession(store: PostgresStore, k: SessionKeys) returns (err: Option<DbError>)
    modifies store
    ensures forall names | IsListing(old(store.regions), k, names) ::
      (store.Contents(), err) == old(store.Contents()).UpdateSession(k, Summarize(RowsOf(old(store.regions), k, names)))
  {
    var rows := store.GetSessionRegions(k);
    ghost var regions := store.regions;
    ghost var listed :| IsListing(regions, k, listed) && rows == RowsOf(regions, k, listed);
    var session := RebuildSession(rows);
    forall names | IsListing(regions, k, names) ensures session == Summarize(RowsOf(regions, k, names)) {
      SameNames(regions, k, listed, names);
      OrderIrrelevant(regions, k, listed, names);
    }
    hide Summarize;
    err := store.UpdateSession(k, session);
  }

  lemma SameNames(regions: map<RegionKey, RegionRow>, k: SessionKeys, a: seq<string>, b: seq<string>)
    requires IsListing(regions, k, a) && IsListing(regions, k, b)
    ensures forall n :: n in a <==> n in b
  {
    assert forall n | n in a :: RegionKey(k, n) in regions;
    assert forall n | n in b :: RegionKey(k, n) in regions;
  }

  /** Any two listings of a session's rows give the same tally, so the query's row order does not matter. */
  lemma {:induction false} OrderIrrelevant(
    regions: map<RegionKey, RegionRow>, k: SessionKeys, a: seq<string>, b: seq<string>)
    requires Distinct(a) && Distinct(b)
    requires forall n :: n in a <==> n in b
    requires forall n | n in a :: RegionKey(k, n) in regions
    ensures TallyOf(RowsOf(regions, k, a)) == TallyOf(RowsOf(regions, k, b))
  {
    if a == [] {
      if b != [] {
        FirstIn(b);
        assert false;
      }
    } else {
      assert a[0] in b;
      var j :| 0 <= j < |b| && b[j] == a[0];
      var rest := b[..j] + b[j + 1..];
      RestOf(a, b, j);
      OrderIrrelevant(regions, k, a[1..], rest);
      MoveToFront(regions, k, b, j);
    }
  }

  lemma FirstIn<T>(xs: seq<T>)
    requires xs != []
    ensures xs[0] in xs
  {
  }

  lemma RestOf(a: seq<string>, b: seq<string>, j: nat)
    requires a != [] && j < |b| && b[j] == a[0]
    requires Distinct(a) && Distinct(b) && forall n :: n in a <==> n in b
    ensures var rest := b[..j] + b[j + 1..]; Distinct(a[1..]) && Distinct(rest) && forall n ::
      n in a[1..] <==> n in rest
  {
    var rest := b[..j] + b[j + 1..];
    assert forall i | 0 <= i < |rest| :: rest[i] == if i < j then b[i] else b[i + 1];
    forall n ensures n in a[1..] <==> n in rest {
      if n in a[1..] {
        var i :| 0 <= i < |a[1..]| && a[1..][i] == n;
        assert a[i + 1] == n && n in a && n != a[0];
        var m :| 0 <= m < |b| && b[m] == n;
        assert rest[if m < j then m else m - 1] == n;
      }
      if n in rest {
        var i :| 0 <= i < |rest| && rest[i] == n;
        assert n in b && n != b[j];
        var m :| 0 <= m < |a| && a[m] == n;
        assert a[1..][m - 1] == n;
      }
    }
  }

  lemma MoveToFront(regions: map<RegionKey, RegionRow>, k: SessionKeys, b: seq<string>, j: nat)
    requires j < |b| && forall n | n in b :: RegionKey(k, n) in regions
    ensures var rest := b[..j] + b[j + 1..];
      && (forall n | n in rest :: RegionKey(k, n) in regions)
      && TallyOf(RowsOf(regions, k, b)) == RowTally(regions[RegionKey(k, b[j])]).Add(TallyOf(RowsOf(regions, k, rest)))
  {
    var x, y := b[..j], b[j + 1..];
    assert b == x + ([b[j]] + y);
    RowsConcat(regions, k, x, [b[j]] + y);
    RowsConcat(regions, k, x, y);
    assert ([b[j]] + y)[1..] == y;
    TallyAppend(RowsOf(regions, k, x), RowsOf(regions, k, [b[j]] + y));
    TallyAppend(RowsOf(regions, k, x), RowsOf(regions, k, y));
    var r := RowsOf(regions, k, [b[j]] + y);
    assert r[1..] == RowsOf(regions, k, y);
  }

  lemma {:induction false} RowsConcat(
    regions: map<RegionKey, RegionRow>, k: SessionKeys, x: seq<string>, y: seq<string>)
    requires forall n | n in x + y :: RegionKey(k, n) in regions
    ensures (forall n | n in x :: n in x + y) && (forall n | n in y :: n in x + y)
    ensures RowsOf(regions, k, x + y) == RowsOf(regions, k, x) + RowsOf(regions, k, y)
  {
    assert forall n | n in x :: n in x + y;
    assert forall n | n in y :: n in x + y;
    if x == [] {
      assert x + y == y;
    } else {
      assert (x + y)[1..] == x[1..] + y;
      assert forall n | n in x[1..] + y :: n in x + y;
      RowsConcat(regions, k, x[1..], y);
    }
  }
}
