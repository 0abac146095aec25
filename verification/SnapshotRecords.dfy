/** What runs leave in the tables, column by column, in terms of the snapshots themselves. */
module SnapshotRecords {
  import opened Averages
  import opened Tables
  import opened RegionHistory
  import opened Aggregation
  import opened SnapshotProtocol
  import opened SnapshotInvariant
  import opened MaterializedView
  import opened SessionAverages
  import opened SnapshotRuns

  /** What the last snapshot recorded for a region row counted; no snapshot counts nothing. */
  function LatestSuccesses(history: History, rk: RegionKey): int {
    var snaps := HistAt(history, rk);
    if snaps == [] then 0 else snaps[|snaps| - 1].successes
  }

  function LatestFailures(history: History, rk: RegionKey): int {
    var snaps := HistAt(history, rk);
    if snaps == [] then 0 else snaps[|snaps| - 1].failures
  }

  function SuccessesOf(history: History, k: SessionKeys, names: seq<string>): seq<int> {
    seq(|names|, i requires 0 <= i < |names| => LatestSuccesses(history, RegionKey(k, names[i])))
  }

  function FailuresOf(history: History, k: SessionKeys, names: seq<string>): seq<int> {
    seq(|names|, i requires 0 <= i < |names| => LatestFailures(history, RegionKey(k, names[i])))
  }

  lemma RowTotals(tables: Tables, history: History, rk: RegionKey)
    requires LedgerOk(tables, history) && rk in tables.regions
    ensures tables.regions[rk].totalSuccess == LatestSuccesses(history, rk)
    ensures tables.regions[rk].totalFailure == LatestFailures(history, rk)
    ensures HistAt(history, rk) != []
  {
    assert tables.regions[rk] == Replay(history[rk]);
  }

  /** The totals of a session row: the sums, over its regions, of what the last snapshot of each region counted. */
  lemma SessionTotalsMean(tables: Tables, history: History, k: SessionKeys, names: seq<string>)
    requires GoodTables(tables, history) && k in tables.sessions && IsListing(tables.regions, k, names)
    ensures forall n | n in names :: HistAt(history, RegionKey(k, n)) != []
    ensures tables.sessions[k].summary.totalSuccess == IntSum(SuccessesOf(history, k, names))
    ensures tables.sessions[k].summary.totalFailure == IntSum(FailuresOf(history, k, names))
  {
    assert Current(tables, k);
    CurrentForEveryOrder(tables, k, names);
    hide GoodTables, Current, Summarize, Materialized;
    RowsTotals(tables, history, k, names);
    SummarizeMeans(RowsOf(tables.regions, k, names));
    hide RowsOf, LedgerOk, IsListing, SuccessesOf, FailuresOf;
  }

  lemma RowsTotals(tables: Tables, history: History, k: SessionKeys, names: seq<string>)
    requires LedgerOk(tables, history) && forall n | n in names :: RegionKey(k, n) in tables.regions
    ensures forall n | n in names :: HistAt(history, RegionKey(k, n)) != []
    ensures var rows := RowsOf(tables.regions, k, names);
      && seq(|rows|, i requires 0 <= i < |rows| => rows[i].totalSuccess) == SuccessesOf(history, k, names)
      && seq(|rows|, i requires 0 <= i < |rows| => rows[i].totalFailure) == FailuresOf(history, k, names)
  {
    hide LedgerOk, RowsOf, HistAt, LatestSuccesses, LatestFailures;
    var rows := RowsOf(tables.regions, k, names);
    forall i: nat | i < |names|
      ensures rows[i].totalSuccess == LatestSuccesses(history, RegionKey(k, names[i]))
      ensures rows[i].totalFailure == LatestFailures(history, RegionKey(k, names[i]))
    {
      RowAt(tables.regions, k, names, i);
      RowTotals(tables, history, RegionKey(k, names[i]));
    }
    forall n | n in names ensures HistAt(history, RegionKey(k, n)) != [] {
      RowTotals(tables, history, RegionKey(k, n));
    }
  }

  /** A region row after one more snapshot, column by column. */
  ghost predicate OneSnapshotMore(tables: Tables, rk: RegionKey, app: AppData, row: RegionRow) {
    && row.totalSuccess == app.successes && row.totalFailure == app.failures
    && row.avgLatency == Mean(row.medianLatency) && row.avgWeightedLatency == Mean(row.weightedLatency)
    && if rk !in tables.regions then
         && row.identity == app.identity && row.failure == app.failure
         && row.medianLatency == [app.medianLatency] && row.weightedLatency == [app.weightedLatency]
         && row.p90Latency == [app.p90Latency] && row.attempts == [app.attempts]
         && row.successRate == [app.successRate]
       else
         var before := tables.regions[rk];
         && row.identity == before.identity && row.failure == (app.failure || before.failure)
         && row.medianLatency == before.medianLatency + [app.medianLatency]
         && row.weightedLatency == before.weightedLatency + [app.weightedLatency]
         && row.p90Latency == before.p90Latency + [app.p90Latency]
         && row.attempts == before.attempts + [app.attempts]
         && row.successRate == before.successRate + [app.successRate]
  }

  lemma ReplayOneMore(snaps: seq<AppData>, app: AppData)
    ensures var row := Replay(snaps + [app]);
      && row.totalSuccess == app.successes && row.totalFailure == app.failures
      && if snaps == [] then
           && row.identity == app.identity && row.failure == app.failure
           && row.medianLatency == [app.medianLatency] && row.weightedLatency == [app.weightedLatency]
           && row.p90Latency == [app.p90Latency] && row.attempts == [app.attempts]
           && row.successRate == [app.successRate]
         else
           var before := Replay(snaps);
           && row.identity == before.identity && row.failure == (app.failure || before.failure)
           && row.medianLatency == before.medianLatency + [app.medianLatency]
           && row.weightedLatency == before.weightedLatency + [app.weightedLatency]
           && row.p90Latency == before.p90Latency + [app.p90Latency]
           && row.attempts == before.attempts + [app.attempts]
           && row.successRate == before.successRate + [app.successRate]
  {
    if snaps == [] {
      assert snaps + [app] == [app];
      CreateIsReplay(app);
    } else {
      FailureAppend(snaps, app);
      ColumnsGrow(snaps, app);
    }
  }

  lemma ColumnsGrow(snaps: seq<AppData>, app: AppData)
    requires snaps != []
    ensures var before, row := Replay(snaps), Replay(snaps + [app]);
      && row.medianLatency == before.medianLatency + [app.medianLatency]
      && row.weightedLatency == before.weightedLatency + [app.weightedLatency]
      && row.p90Latency == before.p90Latency + [app.p90Latency]
      && row.attempts == before.attempts + [app.attempts]
      && row.successRate == before.successRate + [app.successRate]
  {
  }

  /** The key of the row that an entry goes to. */
  function RowOf(app: AppData, region: string): RegionKey {
    RegionKey(SessionKeys(app.publicKey, app.chain, app.sessionKey), region)
  }

  /**
   Every entry that a run keeps has added exactly its snapshot to the row of its node, chain, session key and region;
   all other rows are as they were.
   */
  lemma KeptEntriesRecorded(cfg: Config, tables: Tables, history: History, trace: seq<Step>)
    requires IsRun(cfg, tables, history, trace)
    ensures var s := EndOf(cfg, tables, history, trace);
      && (forall i: nat | i < |cfg.tasks| && KeptEntry(s, i) ::
            var rk := RowOf(cfg.tasks[i].app, cfg.tasks[i].region);
            rk in s.tables.regions && OneSnapshotMore(tables, rk, cfg.tasks[i].app, s.tables.regions[rk]))
      && (forall rk: RegionKey | (forall i: nat | i < |cfg.tasks| && KeptEntry(s, i) :: cfg.tasks[i].Row() != rk) ::
            (rk in s.tables.regions <==> rk in tables.regions)
            && (rk in tables.regions ==> s.tables.regions[rk] == tables.regions[rk]))
  {
    RunIsGood(cfg, tables, history, trace);
    var s := EndOf(cfg, tables, history, trace);
    GoodBefore(cfg, tables, history, trace);
    hide IsRun, EndOf, OneSnapshotMore, HistoryGrownByKept, GoodTables;
    forall i: nat | i < |cfg.tasks| && KeptEntry(s, i)
      ensures var rk := RowOf(cfg.tasks[i].app, cfg.tasks[i].region);
        rk in s.tables.regions && OneSnapshotMore(tables, rk, cfg.tasks[i].app, s.tables.regions[rk])
    {
      KeptRow(cfg, tables, history, s, i);
    }
    forall rk: RegionKey | forall i: nat | i < |cfg.tasks| && KeptEntry(s, i) :: cfg.tasks[i].Row() != rk
      ensures rk in s.tables.regions <==> rk in tables.regions
      ensures rk in tables.regions ==> s.tables.regions[rk] == tables.regions[rk]
    {
      OtherRow(cfg, tables, history, s, rk);
    }
  }

  lemma GoodBefore(cfg: Config, tables: Tables, history: History, trace: seq<Step>)
    requires IsRun(cfg, tables, history, trace)
    ensures GoodTables(tables, history)
  {
  }

  lemma KeptRow(cfg: Config, tables: Tables, history: History, s: State, i: nat)
    requires GoodTables(tables, history) && GoodTables(s.tables, s.history) && HistoryGrownByKept(cfg, history, s)
    requires i < |cfg.tasks| && KeptEntry(s, i)
    ensures var rk := RowOf(cfg.tasks[i].app, cfg.tasks[i].region);
      rk in s.tables.regions && OneSnapshotMore(tables, rk, cfg.tasks[i].app, s.tables.regions[rk])
  {
    var rk, app := cfg.tasks[i].Row(), cfg.tasks[i].app;
    assert rk == RowOf(app, cfg.tasks[i].region);
    assert HistAt(s.history, rk) == HistAt(history, rk) + [app];
    hide HistoryGrownByKept, KeptEntry, Materialized;
    assert rk in s.history && s.tables.regions[rk] == Replay(s.history[rk]);
    assert rk in tables.regions <==> HistAt(history, rk) != [];
    assert rk in tables.regions ==> tables.regions[rk] == Replay(history[rk]);
    hide LedgerOk;
    ReplayOneMore(HistAt(history, rk), app);
    hide Replay, Mean;
  }

  lemma OtherRow(cfg: Config, tables: Tables, history: History, s: State, rk: RegionKey)
    requires GoodTables(tables, history) && GoodTables(s.tables, s.history) && HistoryGrownByKept(cfg, history, s)
    requires forall i: nat | i < |cfg.tasks| && KeptEntry(s, i) :: cfg.tasks[i].Row() != rk
    ensures rk in s.tables.regions <==> rk in tables.regions
    ensures rk in tables.regions ==> s.tables.regions[rk] == tables.regions[rk]
  {
    assert HistAt(s.history, rk) == HistAt(history, rk) by {
      if Owned(cfg, rk) {
        var i: nat :| i < |cfg.tasks| && cfg.tasks[i].Row() == rk;
        assert HistAt(s.history, rk) == HistAt(history, rk) + [];
      }
    }
    hide Materialized, HistoryGrownByKept, Replay;
  }

  /**
   Where a session row's identity comes from: it was there, or is that of a snapshot of one of the session's entries.
   */
  ghost predicate IdentityOk(cfg: Config, before: Tables, after: Tables, k: SessionKeys)
    requires k in after.sessions
  {
    if k in before.sessions then after.sessions[k].identity == before.sessions[k].identity
    else exists i :: 0 <= i < |cfg.tasks| && IsEntryOf(cfg.tasks[i].app, k, after.sessions[k].identity)
  }

  predicate IsEntryOf(app: AppData, k: SessionKeys, identity: Identity) {
    && k == SessionKeys(app.publicKey, app.chain, app.sessionKey)
    && identity.address == app.identity.address && identity.sessionHeight == app.identity.sessionHeight
    && identity.applicationPublicKey == app.identity.applicationPublicKey
  }

  ghost predicate IdentitiesOk(cfg: Config, before: Tables, after: Tables) {
    && (forall k | k in before.sessions :: k in after.sessions)
    && (forall k | k in after.sessions :: IdentityOk(cfg, before, after, k))
  }

  lemma CreatesOwn(t: Task, s: State, i: nat)
    requires i < |s.pcs| && !s.pcs[i].Finished?
    ensures var after := NextTask(t, s, i).tables;
      && (forall k | k in s.tables.sessions :: k in after.sessions && after.sessions[k] == s.tables.sessions[k])
      && (forall k | k in after.sessions && k !in s.tables.sessions :: IsEntryOf(t.app, k, after.sessions[k].identity))
  {
  }

  lemma TaskIdentities(cfg: Config, before: Tables, s: State, i: nat)
    requires Enabled(cfg, s, TaskStep(i)) && IdentitiesOk(cfg, before, s.tables)
    ensures IdentitiesOk(cfg, before, NextTask(cfg.tasks[i], s, i).tables)
  {
    var after := NextTask(cfg.tasks[i], s, i).tables;
    CreatesOwn(cfg.tasks[i], s, i);
    hide NextTask;
    forall k | k in after.sessions ensures IdentityOk(cfg, before, after, k) {
      if k in s.tables.sessions {
        assert IdentityOk(cfg, before, s.tables, k);
      } else {
        assert IsEntryOf(cfg.tasks[i].app, k, after.sessions[k].identity);
      }
    }
  }

  lemma AggIdentities(cfg: Config, before: Tables, s: State, j: nat, names: seq<string>)
    requires Enabled(cfg, s, AggStep(j, names)) && IdentitiesOk(cfg, before, s.tables)
    ensures IdentitiesOk(cfg, before, NextAgg(s, j, names).tables)
  {
    var after := NextAgg(s, j, names).tables;
    AggKeepsIdentity(s, j, names);
    hide NextAgg;
    forall k | k in after.sessions ensures IdentityOk(cfg, before, after, k) {
      assert IdentityOk(cfg, before, s.tables, k);
    }
  }

  lemma AggKeepsIdentity(s: State, j: nat, names: seq<string>)
    requires s.phase.Aggregating? && j < |s.phase.aggs| && j < |s.phase.touched| && !s.phase.aggs[j].AggFinished?
    requires s.phase.aggs[j].ReadingRegions? ==> IsListing(s.tables.regions, s.phase.touched[j], names)
    ensures var after := NextAgg(s, j, names).tables;
      && after.sessions.Keys == s.tables.sessions.Keys
      && forall k | k in after.sessions ::
           k in s.tables.sessions && after.sessions[k].identity == s.tables.sessions[k].identity
  {
  }

  lemma {:induction false} TraceIdentities(cfg: Config, before: Tables, s: State, trace: seq<Step>)
    requires Possible(cfg, s, trace) && IdentitiesOk(cfg, before, s.tables)
    ensures IdentitiesOk(cfg, before, After(cfg, s, trace).tables)
    decreases |trace|
  {
    if trace != [] {
      hide IdentitiesOk;
      StepIdentities(cfg, before, s, trace[0]);
      hide Next, Enabled;
      TraceIdentities(cfg, before, Next(cfg, s, trace[0]), trace[1..]);
    }
  }

  lemma StepIdentities(cfg: Config, before: Tables, s: State, step: Step)
    requires Enabled(cfg, s, step) && IdentitiesOk(cfg, before, s.tables)
    ensures IdentitiesOk(cfg, before, Next(cfg, s, step).tables)
  {
    hide IdentitiesOk, NextTask, NextAgg;
    match step
    case TaskStep(i) => TaskIdentities(cfg, before, s, i);
    case AggStep(j, names) => AggIdentities(cfg, before, s, j, names);
    case _ =>
  }

  /** After a run every session row has the identity it had, or, if it is new, that of one of its entries' snapshots. */
  lemma SessionIdentities(cfg: Config, tables: Tables, history: History, trace: seq<Step>)
    requires IsRun(cfg, tables, history, trace)
    ensures IdentitiesOk(cfg, tables, EndOf(cfg, tables, history, trace).tables)
  {
    TraceIdentities(cfg, tables, Init(cfg, tables, history), trace);
  }
}
