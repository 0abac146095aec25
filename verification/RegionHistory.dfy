/** store.go, createOrUpdateRegion: what one snapshot writes to its region row, and what a row therefore records. */
module RegionHistory {
  import opened Wrappers
  import opened Averages
  import opened Tables

  /** CherryPickerData with its service log: one snapshot of one (node, chain) in one region. */
  datatype AppData = AppData(
    publicKey: string,
    chain: string,
    sessionKey: string,
    identity: Identity,
    successes: int,
    failures: int,
    failure: bool,
    medianLatency: real,
    weightedLatency: real,
    p90Latency: real,
    attempts: int,
    successRate: real)
  {
    function Session(): SessionKeys {
      SessionKeys(publicKey, chain, sessionKey)
    }
  }

  /** Columns the first snapshot of a session gives its row; the rest is zero until the row is rebuilt. */
  function NewSession(app: AppData): SessionRow {
    SessionRow(app.identity, Summary(0, 0, Some(0.0), false))
  }

  function NewRegion(app: AppData): RegionRow {
    RegionRow(app.identity, app.successes, app.failures, [app.medianLatency], [app.weightedLatency],
      Some(app.medianLatency), Some(app.weightedLatency), [app.p90Latency], [app.attempts], [app.successRate],
      app.failure)
  }

  function UpdateFor(seen: RegionRow, app: AppData): RegionUpdate {
    RegionUpdate(app.successes, app.failures, app.medianLatency, app.weightedLatency,
      Mean(seen.medianLatency + [app.medianLatency]), Mean(seen.weightedLatency + [app.weightedLatency]),
      app.p90Latency, app.attempts, app.successRate, app.failure || seen.failure)
  }

  /**
   What a row holds after the snapshots `snaps`, oldest first: the first one's identity, the last one's totals, every
   sample in order, the means of the samples, and the OR of all failure flags.
   */
  function Replay(snaps: seq<AppData>): (row: RegionRow)
    requires |snaps| > 0
    ensures |row.medianLatency| == |row.weightedLatency| == |row.p90Latency| == |snaps|
    ensures |row.attempts| == |row.successRate| == |snaps|
    ensures row.avgLatency == Mean(row.medianLatency) && row.avgLatency.Some?
    ensures row.avgWeightedLatency == Mean(row.weightedLatency) && row.avgWeightedLatency.Some?
  {
    var last := snaps[|snaps| - 1];
    var n := |snaps|;
    var medians := seq(n, i requires 0 <= i < n => snaps[i].medianLatency);
    var weighteds := seq(n, i requires 0 <= i < n => snaps[i].weightedLatency);
    RegionRow(snaps[0].identity, last.successes, last.failures, medians, weighteds, Mean(medians), Mean(weighteds),
      seq(n, i requires 0 <= i < n => snaps[i].p90Latency),
      seq(n, i requires 0 <= i < n => snaps[i].attempts),
      seq(n, i requires 0 <= i < n => snaps[i].successRate),
      exists i :: 0 <= i < n && snaps[i].failure)
  }

  lemma MeanOfOne(x: real)
    ensures Mean([x]) == Some(x)
  {
    assert [x][..0] == [];
    assert Sum([x]) == x;
  }

  /** A created row is the replay of its one snapshot. */
  lemma CreateIsReplay(app: AppData)
    ensures NewRegion(app) == Replay([app])
  {
    MeanOfOne(app.medianLatency);
    MeanOfOne(app.weightedLatency);
    var row := Replay([app]);
    assert row.medianLatency == [app.medianLatency];
    assert row.weightedLatency == [app.weightedLatency];
    assert row.p90Latency == [app.p90Latency];
    assert row.attempts == [app.attempts];
    assert row.successRate == [app.successRate];
    assert [app][0].failure == app.failure;
  }

  /** An update computed from the current row keeps the row a replay of its snapshots. */
  lemma UpdateIsReplay(t: Tables, k: RegionKey, snaps: seq<AppData>, app: AppData)
    requires |snaps| > 0 && k in t.regions && t.regions[k] == Replay(snaps)
    ensures t.UpdateRegion(k, UpdateFor(t.regions[k], app))
         == (t.(regions := t.regions[k := Replay(snaps + [app])]), None)
  {
    var earlier, row := Replay(snaps), Replay(snaps + [app]);
    assert row.medianLatency == earlier.medianLatency + [app.medianLatency];
    assert row.weightedLatency == earlier.weightedLatency + [app.weightedLatency];
    assert row.p90Latency == earlier.p90Latency + [app.p90Latency];
    assert row.attempts == earlier.attempts + [app.attempts];
    assert row.successRate == earlier.successRate + [app.successRate];
    FailureAppend(snaps, app);
  }

  lemma FailureAppend(snaps: seq<AppData>, app: AppData)
    requires |snaps| > 0
    ensures Replay(snaps + [app]).failure <==> Replay(snaps).failure || app.failure
  {
    var all := snaps + [app];
    assert all[|snaps|] == app;
    assert forall i | 0 <= i < |snaps| :: all[i] == snaps[i];
    if Replay(snaps).failure {
      var i :| 0 <= i < |snaps| && snaps[i].failure;
      assert all[i].failure;
    }
  }

  /** Failure never reverts: a row that has recorded more snapshots fails whenever it failed before. */
  lemma FailureIsSticky(snaps: seq<AppData>, more: seq<AppData>)
    requires |snaps| > 0 && Replay(snaps).failure
    ensures Replay(snaps + more).failure
  {
    var i :| 0 <= i < |snaps| && snaps[i].failure;
    assert (snaps + more)[i] == snaps[i];
  }

  /**
   createSessionIfDoesntExist on one store, with nobody in between: it never fails, and never touches a row there is.
   */
  method CreateSessionIfDoesntExist(store: PostgresStore, app: AppData) returns (err: Option<DbError>)
    modifies store
    ensures err.None? && store.regions == old(store.regions)
    ensures store.sessions ==
      if app.Session() in old(store.sessions) then old(store.sessions)
      else old(store.sessions)[app.Session() := SessionRow(app.identity, Summary(0, 0, Some(0.0), false))]
  {
    var session := store.GetSession(app.Session());
    if session.Success? {
      return None;
    }
    err := store.CreateSession(app.Session(), NewSession(app));
  }

  /** createOrUpdateRegion on one store: read the row, then create it or append to it. */
  method CreateOrUpdateRegion(store: PostgresStore, regionName: string, app: AppData, ghost snaps: seq<AppData>)
    returns (err: Option<DbError>)
    requires var k := RegionKey(app.Session(), regionName);
      if snaps == [] then k !in store.regions else k in store.regions && store.regions[k] == Replay(snaps)
    modifies store
    ensures err.Some? <==> snaps == [] && app.Session() !in old(store.sessions)
    ensures err.Some? ==> err.value.ForeignKey? && store.Contents() == old(store.Contents())
    ensures err.None? ==> store.Contents() == old(store.Contents()).(
      regions := old(store.regions)[RegionKey(app.Session(), regionName) := Replay(snaps + [app])])
  {
    var k := RegionKey(app.Session(), regionName);
    ghost var before := store.Contents();
    var storeRegion := store.GetRegion(k);
    if storeRegion.Failure? {
      err := store.CreateRegion(k, NewRegion(app));
      CreateIsReplay(app);
      assert snaps + [app] == [app];
      return;
    }
    var avg := GetSliceAvg(storeRegion.value.medianLatency + [app.medianLatency]);
    var avgWeighted := GetSliceAvg(storeRegion.value.weightedLatency + [app.weightedLatency]);
    UpdateIsReplay(before, k, snaps, app);
    err := store.UpdateRegion(k, RegionUpdate(app.successes, app.failures, app.medianLatency, app.weightedLatency,
      avg, avgWeighted, app.p90Latency, app.attempts, app.successRate, app.failure || storeRegion.value.failure));
  }
}
