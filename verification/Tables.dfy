/**
 The two cherry picker tables of postgres.go and db-init.sql as keyed maps, the operations on them as functions, and
 the store as an object whose methods refine those functions.
 */
module Tables {
  import opened Wrappers

  datatype SessionKeys = SessionKeys(publicKey: string, chain: string, sessionKey: string)

  datatype RegionKey = RegionKey(session: SessionKeys, region: string)

  /** The columns a row gets when it is created and never changes. */
  datatype Identity = Identity(address: string, applicationPublicKey: string, sessionHeight: int)

  /** The columns UpdateSession writes; an average of None is NaN. */
  datatype Summary = Summary(
    totalSuccess: int, totalFailure: int, averageSuccessTime: Option<real>, failure: bool)

  datatype SessionRow = SessionRow(identity: Identity, summary: Summary)

  datatype RegionRow = RegionRow(
    identity: Identity,
    totalSuccess: int,
    totalFailure: int,
    medianLatency: seq<real>,
    weightedLatency: seq<real>,
    avgLatency: Option<real>,
    avgWeightedLatency: Option<real>,
    p90Latency: seq<real>,
    attempts: seq<int>,
    successRate: seq<real>,
    failure: bool)

  /** RegionUpdatePayload: one sample to append to each array, the new averages, totals and flag. */
  datatype RegionUpdate = RegionUpdate(
    totalSuccess: int,
    totalFailure: int,
    medianLatency: real,
    weightedLatency: real,
    avgLatency: Option<real>,
    avgWeightedLatency: Option<real>,
    p90Latency: real,
    attempts: int,
    successRate: real,
    failure: bool)

  datatype DbError = NotFound | Duplicate | ForeignKey

  datatype Tables = Tables(sessions: map<SessionKeys, SessionRow>, regions: map<RegionKey, RegionRow>) {

    function GetSession(k: SessionKeys): Result<SessionRow, DbError> {
      if k in sessions then Success(sessions[k]) else Failure(NotFound)
    }

    /** INSERT under PRIMARY KEY(public_key, chain, session_key). */
    function CreateSession(k: SessionKeys, row: SessionRow): (Tables, Option<DbError>) {
      if k in sessions then (this, Some(Duplicate)) else (this.(sessions := sessions[k := row]), None)
    }

    /** UPDATE ... RETURNING, which finds no row when the key is missing. */
    function UpdateSession(k: SessionKeys, summary: Summary): (Tables, Option<DbError>) {
      if k in sessions then (this.(sessions := sessions[k := sessions[k].(summary := summary)]), None)
      else (this, Some(NotFound))
    }

    function GetRegion(k: RegionKey): Result<RegionRow, DbError> {
      if k in regions then Success(regions[k]) else Failure(NotFound)
    }

    /** INSERT under PRIMARY KEY(..., region) and FOREIGN KEY(...) REFERENCES cherry_picker_session. */
    function CreateRegion(k: RegionKey, row: RegionRow): (Tables, Option<DbError>) {
      if k in regions then (this, Some(Duplicate))
      else if k.session !in sessions then (this, Some(ForeignKey))
      else (this.(regions := regions[k := row]), None)
    }

    /** UPDATE with array_append on the five sample columns. */
    function UpdateRegion(k: RegionKey, u: RegionUpdate): (Tables, Option<DbError>) {
      if k !in regions then (this, Some(NotFound))
      else
        var row := regions[k];
        var updated := RegionRow(
          row.identity, u.totalSuccess, u.totalFailure,
          row.medianLatency + [u.medianLatency], row.weightedLatency + [u.weightedLatency],
          u.avgLatency, u.avgWeightedLatency,
          row.p90Latency + [u.p90Latency], row.attempts + [u.attempts], row.successRate + [u.successRate],
          u.failure);
        (this.(regions := regions[k := updated]), None)
    }
  }

  predicate Distinct<T(==)>(xs: seq<T>) {
    forall i, j | 0 <= i < j < |xs| :: xs[i] != xs[j]
  }

  /** `names` are the regions of the rows of session `k`, each once, in whatever order the query returned them. */
  predicate IsListing(regions: map<RegionKey, RegionRow>, k: SessionKeys, names: seq<string>) {
    && Distinct(names)
    && (forall n | n in names :: RegionKey(k, n) in regions)
    && (forall rk | rk in regions && rk.session == k :: rk.region in names)
  }

  function RowsOf(regions: map<RegionKey, RegionRow>, k: SessionKeys, names: seq<string>): (rows: seq<RegionRow>)
    requires forall n | n in names :: RegionKey(k, n) in regions
    ensures |rows| == |names|
  {
    if names == [] then [] else [regions[RegionKey(k, names[0])]] + RowsOf(regions, k, names[1..])
  }

  class PostgresStore {
    var sessions: map<SessionKeys, SessionRow>
    var regions: map<RegionKey, RegionRow>

    function Contents(): Tables
      reads this
    {
      Tables(sessions, regions)
    }

    constructor ()
      ensures Contents() == Tables(map[], map[])
    {
      sessions, regions := map[], map[];
    }

    method GetSession(k: SessionKeys) returns (r: Result<SessionRow, DbError>)
      ensures r == Contents().GetSession(k)
    {
      r := if k in sessions then Success(sessions[k]) else Failure(NotFound);
    }

    method CreateSession(k: SessionKeys, row: SessionRow) returns (err: Option<DbError>)
      modifies this
      ensures (Contents(), err) == old(Contents()).CreateSession(k, row)
    {
      if k in sessions {
        return Some(Duplicate);
      }
      sessions := sessions[k := row];
      err := None;
    }

    method UpdateSession(k: SessionKeys, summary: Summary) returns (err: Option<DbError>)
      modifies this
      ensures (Contents(), err) == old(Contents()).UpdateSession(k, summary)
    {
      if k !in sessions {
        return Some(NotFound);
      }
      sessions := sessions[k := sessions[k].(summary := summary)];
      err := None;
    }

    /** Appends the rows of the session one at a time, in an order the database chooses. */
    method GetSessionRegions(k: SessionKeys) returns (rows: seq<RegionRow>)
      ensures exists names :: IsListing(regions, k, names) && rows == RowsOf(regions, k, names)
    {
      rows := [];
      ghost var names: seq<string> := [];
      var left := set rk | rk in regions && rk.session == k;
      while left != {}
        invariant forall rk | rk in left :: rk in regions && rk.session == k
        invariant Distinct(names)
        invariant forall n | n in names :: RegionKey(k, n) in regions && RegionKey(k, n) !in left
        invariant forall rk | rk in regions && rk.session == k :: rk in left || rk.region in names
        invariant rows == RowsOf(regions, k, names)
        decreases |left|
      {
        var rk :| rk in left;
        left := left - {rk};
        RowsAppend(regions, k, names, rk.region);
        rows, names := rows + [regions[rk]], names + [rk.region];
      }
    }

    method GetRegion(k: RegionKey) returns (r: Result<RegionRow, DbError>)
      ensures r == Contents().GetRegion(k)
    {
      r := if k in regions then Success(regions[k]) else Failure(NotFound);
    }

    method CreateRegion(k: RegionKey, row: RegionRow) returns (err: Option<DbError>)
      modifies this
      ensures (Contents(), err) == old(Contents()).CreateRegion(k, row)
    {
      if k in regions {
        return Some(Duplicate);
      }
      if k.session !in sessions {
        return Some(ForeignKey);
      }
      regions := regions[k := row];
      err := None;
    }

    method UpdateRegion(k: RegionKey, u: RegionUpdate) returns (err: Option<DbError>)
      modifies this
      ensures (Contents(), err) == old(Contents()).UpdateRegion(k, u)
    {
      if k !in regions {
        return Some(NotFound);
      }
      var row := regions[k];
      row := row.(totalSuccess := u.totalSuccess, totalFailure := u.totalFailure, failure := u.failure,
        avgLatency := u.avgLatency, avgWeightedLatency := u.avgWeightedLatency);
      row := row.(medianLatency := row.medianLatency + [u.medianLatency],
        weightedLatency := row.weightedLatency + [u.weightedLatency],
        p90Latency := row.p90Latency + [u.p90Latency],
        attempts := row.attempts + [u.attempts],
        successRate := row.successRate + [u.successRate]);
      regions := regions[k := row];
      err := None;
    }
  }

  lemma {:induction false} RowsAppend(regions: map<RegionKey, RegionRow>, k: SessionKeys, names: seq<string>, n: string)
    requires forall m | m in names + [n] :: RegionKey(k, m) in regions
    ensures RowsOf(regions, k, names + [n]) == RowsOf(regions, k, names) + [regions[RegionKey(k, n)]]
  {
    assert forall m | m in names :: m in names + [n];
    assert n in names + [n];
    if names != [] {
      assert (names + [n])[1..] == names[1..] + [n];
      assert forall m | m in names[1..] + [n] :: m in names + [n];
      RowsAppend(regions, k, names[1..], n);
    }
  }

  /** Every session's rows can be listed. */
  lemma ListingExists(regions: map<RegionKey, RegionRow>, k: SessionKeys) returns (names: seq<string>)
    ensures IsListing(regions, k, names)
  {
    names := [];
    var left := set rk | rk in regions && rk.session == k;
    while left != {}
      invariant forall rk | rk in left :: rk in regions && rk.session == k
      invariant Distinct(names)
      invariant forall n | n in names :: RegionKey(k, n) in regions && RegionKey(k, n) !in left
      invariant forall rk | rk in regions && rk.session == k :: rk in left || rk.region in names
      decreases |left|
    {
      var rk :| rk in left;
      left := left - {rk};
      names := names + [rk.region];
    }
  }

  /**
   A get finds what the last write to its key left, and writes to other keys or the other table do not matter to it.
   */
  lemma SessionsReadBack(t: Tables, k: SessionKeys, row: SessionRow, summary: Summary, q: SessionKeys, rk: RegionKey)
    ensures var (created, err) := t.CreateSession(k, row);
      && (err.None? <==> t.GetSession(k) == Failure(NotFound)) && (err.Some? ==> err.value.Duplicate?)
      && created.GetSession(k) == (if err.None? then Success(row) else t.GetSession(k))
      && (q != k ==> created.GetSession(q) == t.GetSession(q)) && created.GetRegion(rk) == t.GetRegion(rk)
    ensures var (updated, err) := t.UpdateSession(k, summary);
      && (err.None? <==> t.GetSession(k).Success?) && (err.Some? ==> err.value.NotFound?)
      && (err.None? ==> updated.GetSession(k) == Success(SessionRow(t.GetSession(k).value.identity, summary)))
      && (q != k || err.Some? ==> updated.GetSession(q) == t.GetSession(q)) && updated.GetRegion(rk) == t.GetRegion(rk)
  {
  }

  lemma RegionsReadBack(t: Tables, k: RegionKey, row: RegionRow, u: RegionUpdate, q: RegionKey, sk: SessionKeys)
    ensures var (created, err) := t.CreateRegion(k, row);
      && (err.None? <==> t.GetRegion(k) == Failure(NotFound) && t.GetSession(k.session).Success?)
      && (err.Some? ==> err.value == if t.GetRegion(k).Success? then Duplicate else ForeignKey)
      && created.GetRegion(k) == (if err.None? then Success(row) else t.GetRegion(k))
      && (q != k ==> created.GetRegion(q) == t.GetRegion(q)) && created.GetSession(sk) == t.GetSession(sk)
    ensures var (updated, err) := t.UpdateRegion(k, u);
      && (err.None? <==> t.GetRegion(k).Success?) && (err.Some? ==> err.value.NotFound?)
      && (err.None? ==> updated.GetRegion(k).Success? && OneSampleMore(t.regions[k], updated.GetRegion(k).value, u))
      && (q != k || err.Some? ==> updated.GetRegion(q) == t.GetRegion(q)) && updated.GetSession(sk) == t.GetSession(sk)
  {
  }

  predicate OneSampleMore(row: RegionRow, row': RegionRow, u: RegionUpdate) {
    && row'.identity == row.identity
    && row'.medianLatency == row.medianLatency + [u.medianLatency]
    && row'.weightedLatency == row.weightedLatency + [u.weightedLatency]
    && row'.p90Latency == row.p90Latency + [u.p90Latency]
    && row'.attempts == row.attempts + [u.attempts] && row'.successRate == row.successRate + [u.successRate]
    && row'.totalSuccess == u.totalSuccess && row'.totalFailure == u.totalFailure && row'.failure == u.failure
    && row'.avgLatency == u.avgLatency && row'.avgWeightedLatency == u.avgWeightedLatency
  }

  /** A write to the database, by whichever goroutine of whichever run. */
  datatype Write =
    | CreatesSession(k: SessionKeys, row: SessionRow)
    | UpdatesSession(k: SessionKeys, summary: Summary)
    | CreatesRegion(rk: RegionKey, region: RegionRow)
    | UpdatesRegion(rk: RegionKey, update: RegionUpdate)

  function Written(t: Tables, w: Write): Tables {
    match w
    case CreatesSession(k, row) => t.CreateSession(k, row).0
    case UpdatesSession(k, summary) => t.UpdateSession(k, summary).0
    case CreatesRegion(rk, region) => t.CreateRegion(rk, region).0
    case UpdatesRegion(rk, update) => t.UpdateRegion(rk, update).0
  }

  function AllWritten(t: Tables, writes: seq<Write>): Tables
    decreases |writes|
  {
    if writes == [] then t else AllWritten(Written(t, writes[0]), writes[1..])
  }

  predicate ReferencesOk(t: Tables) {
    forall rk | rk in t.regions :: rk.session in t.sessions
  }

  /** Nothing disappears, identities never change, and samples are only ever appended. */
  ghost predicate OnlyGrows(t: Tables, t': Tables) {
    && (forall k | k in t.sessions :: k in t'.sessions && t'.sessions[k].identity == t.sessions[k].identity)
    && (forall rk | rk in t.regions :: rk in t'.regions && RowGrows(t.regions[rk], t'.regions[rk]))
  }

  predicate RowGrows(row: RegionRow, row': RegionRow) {
    && row'.identity == row.identity
    && row.medianLatency <= row'.medianLatency && row.weightedLatency <= row'.weightedLatency
    && row.p90Latency <= row'.p90Latency && row.attempts <= row'.attempts && row.successRate <= row'.successRate
  }

  lemma WriteKeeps(t: Tables, w: Write)
    requires ReferencesOk(t)
    ensures ReferencesOk(Written(t, w)) && OnlyGrows(t, Written(t, w))
  {
    match w
    case CreatesSession(_, _) =>
    case UpdatesSession(_, _) =>
    case CreatesRegion(_, _) =>
    case UpdatesRegion(rk, update) => UpdateKeeps(t, rk, update);
  }

  lemma UpdateKeeps(t: Tables, rk: RegionKey, update: RegionUpdate)
    requires ReferencesOk(t)
    ensures ReferencesOk(t.UpdateRegion(rk, update).0) && OnlyGrows(t, t.UpdateRegion(rk, update).0)
  {
  }

  /** Whatever is written, in any order and by anybody: no region row without its session row, and nothing is lost. */
  lemma {:induction false} WritesKeep(t: Tables, writes: seq<Write>)
    requires ReferencesOk(t)
    ensures ReferencesOk(AllWritten(t, writes)) && OnlyGrows(t, AllWritten(t, writes))
    decreases |writes|
  {
    if writes != [] {
      var next := Written(t, writes[0]);
      WriteKeeps(t, writes[0]);
      WritesKeep(next, writes[1..]);
      var end := AllWritten(next, writes[1..]);
      hide AllWritten, Written, RowGrows;
      forall rk | rk in t.regions ensures rk in end.regions && RowGrows(t.regions[rk], end.regions[rk]) {
        GrowsOn(t.regions[rk], next.regions[rk], end.regions[rk]);
      }
    }
  }

  lemma GrowsOn(a: RegionRow, b: RegionRow, c: RegionRow)
    requires RowGrows(a, b) && RowGrows(b, c)
    ensures RowGrows(a, c)
  {
  }
}
