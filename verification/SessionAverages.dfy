/** What the stored session average means in terms of the stored region averages. */
module SessionAverages {
  import opened Averages
  import opened Tables
  import opened RegionHistory
  import opened Aggregation
  import opened SnapshotProtocol
  import opened SnapshotInvariant
  import opened MaterializedView
  import opened SnapshotRuns

  /** Every row has samples and stores their mean. */
  predicate Averaged(rows: seq<RegionRow>) {
    forall i | 0 <= i < |rows| :: rows[i].medianLatency != [] && rows[i].avgLatency == Mean(rows[i].medianLatency)
  }

  function Times(x: real, n: nat): real {
    x * n as real
  }

  /** The sum of the region averages, each weighted by its number of snapshots. */
  function WeightedSum(rows: seq<RegionRow>): real
    requires Averaged(rows)
  {
    if rows == [] then 0.0
    else Times(rows[0].avgLatency.value, |rows[0].medianLatency|) + WeightedSum(rows[1..])
  }

  lemma {:induction false} LatencyIsWeightedSum(rows: seq<RegionRow>)
    requires Averaged(rows)
    ensures TallyOf(rows).latency == WeightedSum(rows)
  {
    if rows != [] {
      MeanTimesCount(rows[0].medianLatency);
      LatencyIsWeightedSum(rows[1..]);
    }
  }

  ghost predicate Between(rows: seq<RegionRow>, lo: real, hi: real)
    requires Averaged(rows)
  {
    forall i | 0 <= i < |rows| :: lo <= rows[i].avgLatency.value <= hi
  }

  lemma {:induction false} WeightedSumBounds(rows: seq<RegionRow>, lo: real, hi: real)
    requires Averaged(rows) && Between(rows, lo, hi)
    ensures Times(lo, TallyOf(rows).samples) <= WeightedSum(rows) <= Times(hi, TallyOf(rows).samples)
  {
    if rows == [] {
    } else {
      hide Times;
      var rest := rows[1..];
      var a, n, m := rows[0].avgLatency.value, |rows[0].medianLatency|, TallyOf(rest).samples;
      WeightedSumBounds(rest, lo, hi);
      TimesBounds(lo, a, hi, n);
      TimesAdd(lo, n, m);
      TimesAdd(hi, n, m);
    }
  }

  lemma TimesAdd(x: real, n: nat, m: nat)
    ensures Times(x, n + m) == Times(x, n) + Times(x, m)
  {
  }

  lemma TimesBounds(lo: real, a: real, hi: real, n: nat)
    requires lo <= a <= hi
    ensures Times(lo, n) <= Times(a, n) <= Times(hi, n)
  {
  }

  lemma TimesQuotient(x: real, n: nat)
    requires n > 0
    ensures Times(x / n as real, n) == x
  {
    DivideMultiply(x, n as real);
  }

  lemma TimesReflects(a: real, b: real, n: nat)
    requires n > 0 && Times(a, n) <= Times(b, n)
    ensures a <= b
  {
    if a > b {
      MultiplyLess(b, a, n as real);
    }
  }

  lemma MultiplyLess(a: real, b: real, n: real)
    requires a < b && n > 0.0
    ensures a * n < b * n
  {
  }

  lemma {:induction false} SamplesPositive(rows: seq<RegionRow>)
    requires Averaged(rows) && rows != []
    ensures TallyOf(rows).samples > 0
  {
    assert TallyOf(rows).samples == |rows[0].medianLatency| + TallyOf(rows[1..]).samples;
  }

  /**
   In tables that runs leave behind, a session average is never NaN: it is the snapshot-weighted mean of the region
   averages, and lies between any bounds on them.
   */
  lemma SessionAverageMeans(tables: Tables, history: History, k: SessionKeys, names: seq<string>, lo: real, hi: real)
    requires GoodTables(tables, history) && k in tables.sessions && IsListing(tables.regions, k, names)
    ensures var rows, average := RowsOf(tables.regions, k, names), tables.sessions[k].summary.averageSuccessTime;
      && Averaged(rows) && average.Some? && TallyOf(rows).samples > 0
      && Times(average.value, TallyOf(rows).samples) == WeightedSum(rows)
      && (Between(rows, lo, hi) ==> lo <= average.value <= hi)
  {
    assert Current(tables, k);
    RowsAreAveraged(tables, history, k, names);
    ListingNotEmpty(tables, k, names);
    CurrentForEveryOrder(tables, k, names);
    var rows := RowsOf(tables.regions, k, names);
    hide GoodTables, Current, RowsOf, Averaged, Between, Summarize, TallyOf, WeightedSum, Times;
    SummaryMeans(rows, lo, hi);
  }

  lemma SummaryMeans(rows: seq<RegionRow>, lo: real, hi: real)
    requires Averaged(rows) && rows != []
    ensures var average := Summarize(rows).averageSuccessTime;
      && average.Some? && TallyOf(rows).samples > 0
      && Times(average.value, TallyOf(rows).samples) == WeightedSum(rows)
      && (Between(rows, lo, hi) ==> lo <= average.value <= hi)
  {
    SamplesPositive(rows);
    LatencyIsWeightedSum(rows);
    var n := TallyOf(rows).samples;
    hide Times, TallyOf, WeightedSum, Between, Averaged;
    var average := Summarize(rows).averageSuccessTime;
    TimesQuotient(TallyOf(rows).latency, n);
    if Between(rows, lo, hi) {
      WeightedSumBounds(rows, lo, hi);
      TimesReflects(lo, average.value, n);
      TimesReflects(average.value, hi, n);
    }
  }

  lemma ListingNotEmpty(tables: Tables, k: SessionKeys, names: seq<string>)
    requires Current(tables, k) && IsListing(tables.regions, k, names)
    ensures names != []
  {
    var other :| IsListing(tables.regions, k, other) && other != [];
    assert other[0] in other;
    assert RegionKey(k, other[0]) in tables.regions;
  }

  lemma RowsAreAveraged(tables: Tables, history: History, k: SessionKeys, names: seq<string>)
    requires LedgerOk(tables, history) && forall n | n in names :: RegionKey(k, n) in tables.regions
    ensures Averaged(RowsOf(tables.regions, k, names))
  {
    forall i | 0 <= i < |names|
      ensures var row := RowsOf(tables.regions, k, names)[i];
        row.medianLatency != [] && row.avgLatency == Mean(row.medianLatency)
    {
      RowAt(tables.regions, k, names, i);
      assert names[i] in names;
      var rk := RegionKey(k, names[i]);
      assert tables.regions[rk] == Replay(history[rk]);
    }
  }

  lemma {:induction false} RowAt(regions: map<RegionKey, RegionRow>, k: SessionKeys, names: seq<string>, i: nat)
    requires forall n | n in names :: RegionKey(k, n) in regions
    requires i < |names|
    ensures names[i] in names && RowsOf(regions, k, names)[i] == regions[RegionKey(k, names[i])]
  {
    if i > 0 {
      assert forall n | n in names[1..] :: n in names;
      RowAt(regions, k, names[1..], i - 1);
    }
  }
}
