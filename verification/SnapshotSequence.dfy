/** Any number of snapshot runs, one after the other: the view is held across runs and failures never revert. */
module SnapshotSequence {
  import opened Tables
  import opened RegionHistory
  import opened Aggregation
  import opened SnapshotProtocol
  import opened SnapshotInvariant
  import opened MaterializedView
  import opened SnapshotRuns

  datatype Run = Run(cfg: Config, trace: seq<Step>)

  ghost predicate AreRuns(tables: Tables, history: History, runs: seq<Run>)
    decreases |runs|
  {
    runs == [] ||
    (&& IsRun(runs[0].cfg, tables, history, runs[0].trace)
     && var s := EndOf(runs[0].cfg, tables, history, runs[0].trace);
        AreRuns(s.tables, s.history, runs[1..]))
  }

  ghost function AfterRuns(tables: Tables, history: History, runs: seq<Run>): (Tables, History)
    requires AreRuns(tables, history, runs)
    decreases |runs|
  {
    if runs == [] then (tables, history)
    else
      var s := EndOf(runs[0].cfg, tables, history, runs[0].trace);
      AfterRuns(s.tables, s.history, runs[1..])
  }

  /** Nothing recorded is ever lost or rewritten. */
  ghost predicate Extends(tables: Tables, history: History, tables': Tables, history': History) {
    && (forall k | k in tables.sessions :: k in tables'.sessions)
    && (forall rk :: HistAt(history, rk) <= HistAt(history', rk))
  }

  lemma RunExtends(cfg: Config, tables: Tables, history: History, s: State)
    requires HistoryGrownByKept(cfg, history, s) && forall k | k in tables.sessions :: k in s.tables.sessions
    ensures Extends(tables, history, s.tables, s.history)
  {
    forall rk ensures HistAt(history, rk) <= HistAt(s.history, rk) {
      if Owned(cfg, rk) {
        var i: nat :| i < |cfg.tasks| && cfg.tasks[i].Row() == rk;
      }
    }
  }

  /** The starting point of the first run ever. */
  lemma EmptyTablesAreGood()
    ensures GoodTables(Tables(map[], map[]), map[])
  {
  }

  /**
   Over any sequence of runs, whatever their interleavings: every session row is the summary of its region rows, every
   region row the replay of its history, and histories only grow.
   */
  lemma {:induction false} ViewHeldAcrossRuns(tables: Tables, history: History, runs: seq<Run>)
    requires GoodTables(tables, history) && AreRuns(tables, history, runs)
    ensures var (tables', history') := AfterRuns(tables, history, runs);
      GoodTables(tables', history') && Extends(tables, history, tables', history')
    decreases |runs|
  {
    if runs != [] {
      var cfg, trace := runs[0].cfg, runs[0].trace;
      var s := EndOf(cfg, tables, history, trace);
      RunIsGood(cfg, tables, history, trace);
      RunExtends(cfg, tables, history, s);
      hide EndOf, IsRun, GoodTables, HistoryGrownByKept, Extends;
      ViewHeldAcrossRuns(s.tables, s.history, runs[1..]);
      var (tables', history') := AfterRuns(s.tables, s.history, runs[1..]);
      ExtendsTransitive(tables, history, s.tables, s.history, tables', history');
    }
  }

  lemma ExtendsTransitive(t0: Tables, h0: History, t1: Tables, h1: History, t2: Tables, h2: History)
    requires Extends(t0, h0, t1, h1) && Extends(t1, h1, t2, h2)
    ensures Extends(t0, h0, t2, h2)
  {
    forall rk ensures HistAt(h0, rk) <= HistAt(h2, rk) {
      assert HistAt(h0, rk) <= HistAt(h1, rk) <= HistAt(h2, rk);
    }
  }

  /** Some snapshot of some region of the session was a failure. */
  ghost predicate EverFailed(history: History, k: SessionKeys) {
    exists rk, n: nat :: rk in history && rk.session == k && n < |history[rk]| && history[rk][n].failure
  }

  /** A session fails exactly when some snapshot of some of its regions ever failed. */
  lemma SessionFailureMeans(tables: Tables, history: History, k: SessionKeys)
    requires GoodTables(tables, history) && k in tables.sessions
    ensures tables.sessions[k].summary.failure <==> EverFailed(history, k)
  {
    assert Current(tables, k);
    var names :| IsListing(tables.regions, k, names)
      && tables.sessions[k].summary == Summarize(RowsOf(tables.regions, k, names));
    TallyFailed(tables.regions, k, names);
    hide RowsOf, Current, Materialized;
    if tables.sessions[k].summary.failure {
      var name :| name in names && tables.regions[RegionKey(k, name)].failure;
      RowFailureMeans(tables, history, RegionKey(k, name));
    }
    if rk, n: nat :| rk in history && rk.session == k && n < |history[rk]| && history[rk][n].failure {
      RowFailureMeans(tables, history, rk);
      assert rk.region in names && rk == RegionKey(k, rk.region);
    }
  }

  lemma RowFailureMeans(tables: Tables, history: History, rk: RegionKey)
    requires LedgerOk(tables, history) && rk in tables.regions
    ensures rk in history
    ensures tables.regions[rk].failure <==> exists n: nat :: n < |history[rk]| && history[rk][n].failure
  {
    assert tables.regions[rk] == Replay(history[rk]);
  }

  lemma {:induction false} TallyFailed(regions: map<RegionKey, RegionRow>, k: SessionKeys, names: seq<string>)
    requires forall n | n in names :: RegionKey(k, n) in regions
    ensures TallyOf(RowsOf(regions, k, names)).failed <==> exists n :: n in names && regions[RegionKey(k, n)].failure
  {
    if names != [] {
      assert names[0] in names;
      assert forall n :: n in names <==> n == names[0] || n in names[1..];
      TallyFailed(regions, k, names[1..]);
    }
  }

  /** Neither a region row nor a session row that has failed ever stops failing, over any sequence of runs. */
  lemma FailureNeverReverts(tables: Tables, history: History, runs: seq<Run>)
    requires GoodTables(tables, history) && AreRuns(tables, history, runs)
    ensures var tables' := AfterRuns(tables, history, runs).0;
      && (forall rk | rk in tables.regions && tables.regions[rk].failure ::
            rk in tables'.regions && tables'.regions[rk].failure)
      && (forall k | k in tables.sessions && tables.sessions[k].summary.failure ::
            k in tables'.sessions && tables'.sessions[k].summary.failure)
  {
    ViewHeldAcrossRuns(tables, history, runs);
    var (tables', history') := AfterRuns(tables, history, runs);
    hide AfterRuns, AreRuns;
    forall rk | rk in tables.regions && tables.regions[rk].failure
      ensures rk in tables'.regions && tables'.regions[rk].failure
    {
      RegionStaysFailed(tables, history, tables', history', rk);
    }
    forall k | k in tables.sessions && tables.sessions[k].summary.failure
      ensures k in tables'.sessions && tables'.sessions[k].summary.failure
    {
      SessionStaysFailed(tables, history, tables', history', k);
    }
  }

  lemma RegionStaysFailed(tables: Tables, history: History, tables': Tables, history': History, rk: RegionKey)
    requires LedgerOk(tables, history) && LedgerOk(tables', history') && Extends(tables, history, tables', history')
    requires rk in tables.regions && tables.regions[rk].failure
    ensures rk in tables'.regions && tables'.regions[rk].failure
  {
    var h, h' := HistAt(history, rk), HistAt(history', rk);
    assert h <= h' && |h| > 0;
    assert h' == h + h'[|h|..];
    FailureIsSticky(h, h'[|h|..]);
  }

  lemma SessionStaysFailed(tables: Tables, history: History, tables': Tables, history': History, k: SessionKeys)
    requires GoodTables(tables, history) && GoodTables(tables', history') && Extends(tables, history, tables', history')
    requires k in tables.sessions && tables.sessions[k].summary.failure
    ensures k in tables'.sessions && tables'.sessions[k].summary.failure
  {
    hide EverFailed, GoodTables, HistAt;
    SessionFailureMeans(tables, history, k);
    SessionFailureMeans(tables', history', k);
    EverFailedStays(tables, history, tables', history', k);
  }

  lemma EverFailedStays(tables: Tables, history: History, tables': Tables, history': History, k: SessionKeys)
    requires EverFailed(history, k) && Extends(tables, history, tables', history')
    ensures EverFailed(history', k)
  {
    var rk, n: nat :| rk in history && rk.session == k && n < |history[rk]| && history[rk][n].failure;
    assert HistAt(history, rk) <= HistAt(history', rk);
    assert history'[rk][n] == history[rk][n];
  }
}
