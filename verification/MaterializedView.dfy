/** The second phase of a snapshot run: the session table as a view of the region table. */
module MaterializedView {
  import opened Tables
  import opened Aggregation
  import opened Counting
  import opened SnapshotProtocol
  import opened SnapshotInvariant

  /** `summary` sums up the region rows of session `k`, of which there is at least one. */
  ghost predicate IsSummary(regions: map<RegionKey, RegionRow>, k: SessionKeys, summary: Summary) {
    exists names :: IsListing(regions, k, names) && names != [] && summary == Summarize(RowsOf(regions, k, names))
  }

  ghost predicate Current(tables: Tables, k: SessionKeys) {
    k in tables.sessions && IsSummary(tables.regions, k, tables.sessions[k].summary)
  }

  /** Every session row, touched or not, is up to date with its region rows. */
  ghost predicate Materialized(tables: Tables) {
    forall k | k in tables.sessions :: Current(tables, k)
  }

  /** Rows of other sessions do not matter to a summary. */
  lemma SummaryFrame(
    regions: map<RegionKey, RegionRow>, regions': map<RegionKey, RegionRow>, k: SessionKeys, summary: Summary)
    requires IsSummary(regions, k, summary)
    requires forall rk: RegionKey | rk.session == k :: rk in regions <==> rk in regions'
    requires forall rk: RegionKey | rk.session == k && rk in regions :: regions'[rk] == regions[rk]
    ensures IsSummary(regions', k, summary)
  {
    var names :| IsListing(regions, k, names) && names != [] && summary == Summarize(RowsOf(regions, k, names));
    RowsFrame(regions, regions', k, names);
    assert IsListing(regions', k, names);
  }

  lemma {:induction false} RowsFrame(
    regions: map<RegionKey, RegionRow>, regions': map<RegionKey, RegionRow>, k: SessionKeys, names: seq<string>)
    requires forall n | n in names :: RegionKey(k, n) in regions && RegionKey(k, n) in regions'
    requires forall n | n in names :: regions'[RegionKey(k, n)] == regions[RegionKey(k, n)]
    ensures RowsOf(regions', k, names) == RowsOf(regions, k, names)
  {
    if names != [] {
      assert names[0] in names;
      assert forall n | n in names[1..] :: n in names;
      RowsFrame(regions, regions', k, names[1..]);
    }
  }

  /** A session row that is up to date equals the summary of any listing of its rows, in any order. */
  lemma CurrentForEveryOrder(tables: Tables, k: SessionKeys, names: seq<string>)
    requires Current(tables, k) && IsListing(tables.regions, k, names)
    ensures tables.sessions[k].summary == Summarize(RowsOf(tables.regions, k, names))
  {
    var regions := tables.regions;
    var other :| IsListing(regions, k, other) && tables.sessions[k].summary == Summarize(RowsOf(regions, k, other));
    SameNames(regions, k, other, names);
    OrderIrrelevant(regions, k, other, names);
  }

  predicate IsAggHolding(pc: AggPc) {
    pc.Holding()
  }

  ghost predicate AggSemaphoreOk(cfg: Config, s: State)
    requires s.phase.Aggregating?
  {
    s.held == |Where(s.phase.aggs, IsAggHolding)| && s.held <= cfg.concurrency
  }

  ghost predicate AggOk(tables: Tables, k: SessionKeys, pc: AggPc) {
    && k in tables.sessions
    && (pc.WritingSession? ==> IsSummary(tables.regions, k, pc.summary))
    && (pc.Past() ==> pc.err.None? && Current(tables, k))
  }

  ghost predicate AggsOk(s: State)
    requires s.phase.Aggregating?
  {
    && |s.phase.touched| == |s.phase.aggs|
    && Distinct(s.phase.touched)
    && forall j | 0 <= j < |s.phase.aggs| :: AggOk(s.tables, s.phase.touched[j], s.phase.aggs[j])
  }

  ghost predicate UntouchedCurrent(s: State)
    requires s.phase.Aggregating?
  {
    forall k | k in s.tables.sessions && k !in s.phase.touched :: Current(s.tables, k)
  }

  ghost predicate HasRegion(tables: Tables, k: SessionKeys) {
    exists rk :: rk in tables.regions && rk.session == k
  }

  ghost predicate AllHaveRegions(tables: Tables) {
    forall k | k in tables.sessions :: HasRegion(tables, k)
  }

  /** What the first phase settled, which the second phase leaves alone. */
  ghost predicate Settled(cfg: Config, base: State, s: State) {
    && LedgerOk(s.tables, s.history)
    && TasksOk(cfg, base, s)
    && AllFinished(s.pcs)
    && UnownedOk(cfg, base, s)
    && WinnersOk(cfg, base, s)
    && AllHaveRegions(s.tables)
    && (forall k | k in base.tables.sessions :: k in s.tables.sessions)
  }

  ghost predicate AggInv(cfg: Config, base: State, s: State) {
    && s.phase.Aggregating?
    && AggSemaphoreOk(cfg, s)
    && Settled(cfg, base, s)
    && AggsOk(s)
    && UntouchedCurrent(s)
  }

  ghost predicate EndInv(cfg: Config, base: State, s: State) {
    s.phase.Ended? && Settled(cfg, base, s) && Materialized(s.tables)
  }

  /** At the barrier every session has a region row: an old one, or the one its winner has persisted. */
  lemma RegionsAtBarrier(cfg: Config, base: State, s: State)
    requires LedgerOk(base.tables, base.history) && Materialized(base.tables)
    requires LedgerOk(s.tables, s.history) && TasksOk(cfg, base, s) && SessionsOk(cfg, base, s)
    requires UnownedOk(cfg, base, s) && AllFinished(s.pcs)
    ensures AllHaveRegions(s.tables)
  {
    hide LedgerOk, TasksOk, SessionsOk, UnownedOk, HasRegion, Materialized;
    forall k | k in s.tables.sessions ensures HasRegion(s.tables, k) {
      if k in base.tables.sessions {
        OldHasRegion(cfg, base, s, k);
      } else {
        NewHasRegion(cfg, base, s, k);
      }
    }
  }

  lemma OldHasRegion(cfg: Config, base: State, s: State, k: SessionKeys)
    requires LedgerOk(base.tables, base.history) && Materialized(base.tables) && k in base.tables.sessions
    requires LedgerOk(s.tables, s.history) && TasksOk(cfg, base, s) && UnownedOk(cfg, base, s)
    ensures HasRegion(s.tables, k)
  {
    assert Current(base.tables, k);
    hide LedgerOk, TasksOk, UnownedOk;
    var names :| IsListing(base.tables.regions, k, names) && names != [];
    assert names[0] in names;
    HistoryGrows(cfg, base, s, RegionKey(k, names[0]));
  }

  lemma NewHasRegion(cfg: Config, base: State, s: State, k: SessionKeys)
    requires LedgerOk(s.tables, s.history) && TasksOk(cfg, base, s) && SessionsOk(cfg, base, s) && AllFinished(s.pcs)
    requires k in s.tables.sessions && k !in base.tables.sessions
    ensures HasRegion(s.tables, k)
  {
    var i := WinnerOf(cfg, base, s, k);
    hide LedgerOk, TasksOk, SessionsOk, AllFinished;
    PersistedHasRow(cfg, base, s, i);
  }

  lemma WinnerOf(cfg: Config, base: State, s: State, k: SessionKeys) returns (i: nat)
    requires |s.pcs| == |cfg.tasks| && WinnersOk(cfg, base, s) && AllFinished(s.pcs)
    requires k in s.tables.sessions && k !in base.tables.sessions
    ensures i < |s.pcs| && cfg.tasks[i].Session() == k && s.pcs[i].Persisted()
  {
    assert HasWinner(cfg, s, k);
    i :| i < |s.pcs| && i < |cfg.tasks| && cfg.tasks[i].Session() == k && s.pcs[i].Winning();
  }

  lemma PersistedHasRow(cfg: Config, base: State, s: State, i: nat)
    requires LedgerOk(s.tables, s.history) && TasksOk(cfg, base, s) && i < |s.pcs| && s.pcs[i].Persisted()
    ensures cfg.tasks[i].Row() in s.tables.regions
  {
    assert TaskOk(cfg.tasks[i], s.pcs[i], base, s);
    assert |HistAt(s.history, cfg.tasks[i].Row())| > 0;
  }

  lemma HistoryGrows(cfg: Config, base: State, s: State, rk: RegionKey)
    requires LedgerOk(base.tables, base.history) && LedgerOk(s.tables, s.history)
    requires TasksOk(cfg, base, s) && UnownedOk(cfg, base, s) && rk in base.tables.regions
    ensures rk in s.tables.regions
  {
    if Owned(cfg, rk) {
      var i :| 0 <= i < |cfg.tasks| && cfg.tasks[i].Row() == rk;
      assert TaskOk(cfg.tasks[i], s.pcs[i], base, s);
    } else {
      assert HistAt(s.history, rk) == HistAt(base.history, rk);
    }
  }

  ghost predicate NonePersisted(cfg: Config, s: State, k: SessionKeys) {
    forall i | 0 <= i < |s.pcs| && i < |cfg.tasks| && cfg.tasks[i].Session() == k :: !s.pcs[i].Persisted()
  }

  /** A session none of whose tasks persisted anything has exactly the region rows it had before the run. */
  lemma UntouchedRows(cfg: Config, base: State, s: State, rk: RegionKey)
    requires LedgerOk(base.tables, base.history) && LedgerOk(s.tables, s.history)
    requires TasksOk(cfg, base, s) && UnownedOk(cfg, base, s)
    requires NonePersisted(cfg, s, rk.session)
    ensures rk in s.tables.regions <==> rk in base.tables.regions
    ensures rk in s.tables.regions ==> s.tables.regions[rk] == base.tables.regions[rk]
  {
    if Owned(cfg, rk) {
      var i :| 0 <= i < |cfg.tasks| && cfg.tasks[i].Row() == rk;
      assert TaskOk(cfg.tasks[i], s.pcs[i], base, s);
    }
    assert HistAt(s.history, rk) == HistAt(base.history, rk);
  }

  lemma UntouchedStaysCurrent(cfg: Config, base: State, s: State, k: SessionKeys)
    requires LedgerOk(base.tables, base.history) && Materialized(base.tables)
    requires LedgerOk(s.tables, s.history) && TasksOk(cfg, base, s) && SessionsOk(cfg, base, s)
    requires UnownedOk(cfg, base, s) && AllFinished(s.pcs)
    requires k in s.tables.sessions && NonePersisted(cfg, s, k)
    ensures Current(s.tables, k)
  {
    OldSession(cfg, base, s, k);
    assert Current(base.tables, k);
    forall rk: RegionKey | rk.session == k
      ensures rk in s.tables.regions <==> rk in base.tables.regions
      ensures rk in s.tables.regions ==> s.tables.regions[rk] == base.tables.regions[rk]
    {
      UntouchedRows(cfg, base, s, rk);
    }
    SummaryFrame(base.tables.regions, s.tables.regions, k, base.tables.sessions[k].summary);
  }

  lemma OldSession(cfg: Config, base: State, s: State, k: SessionKeys)
    requires TasksOk(cfg, base, s) && SessionsOk(cfg, base, s) && AllFinished(s.pcs)
    requires k in s.tables.sessions && NonePersisted(cfg, s, k)
    ensures k in base.tables.sessions
  {
    assert forall i | 0 <= i < |s.pcs| :: s.pcs[i].Winning() ==> s.pcs[i].Persisted();
    assert !HasWinner(cfg, s, k);
  }

  /** A session somebody persisted a snapshot of is handed to the second phase. */
  lemma PersistedIsTouched(cfg: Config, base: State, s: State, order: seq<string>, touched: seq<SessionKeys>, i: nat)
    requires WellFormed(cfg) && TasksOk(cfg, base, s) && StoreOk(s)
    requires i < |s.pcs| && s.pcs[i].Persisted()
    requires forall p | p in s.inStore :: p in order
    requires |touched| == |order| && forall n | 0 <= n < |order| ::
      order[n] in s.inStore && touched[n] == s.inStore[order[n]]
    ensures cfg.tasks[i].Session() in touched
  {
    assert TaskOk(cfg.tasks[i], s.pcs[i], base, s);
    KeySeen(s, cfg.tasks[i].Session());
    var n :| 0 <= n < |order| && order[n] == Printed(cfg.tasks[i].Session());
    assert touched[n] == cfg.tasks[i].Session();
  }

  lemma TouchedAreDistinct(s: State, order: seq<string>, touched: seq<SessionKeys>)
    requires StoreOk(s) && Distinct(order) && forall p | p in order :: p in s.inStore
    requires |touched| == |order| && forall n | 0 <= n < |order| ::
      order[n] in order && touched[n] == s.inStore[order[n]]
    ensures Distinct(touched) && forall n | 0 <= n < |touched| :: touched[n] in s.tables.sessions
  {
    forall a, b | 0 <= a < b < |touched| ensures touched[a] != touched[b] {
      assert Printed(touched[a]) == order[a] && Printed(touched[b]) == order[b];
    }
  }

  lemma UntouchedIsCurrent(
    cfg: Config, base: State, s: State, order: seq<string>, touched: seq<SessionKeys>, k: SessionKeys)
    requires WellFormed(cfg) && LedgerOk(base.tables, base.history) && Materialized(base.tables)
    requires CollectInv(cfg, base, s) && AllFinished(s.pcs)
    requires forall p | p in s.inStore :: p in order
    requires |touched| == |order| && forall n | 0 <= n < |order| ::
      order[n] in s.inStore && touched[n] == s.inStore[order[n]]
    requires k in s.tables.sessions && k !in touched
    ensures Current(s.tables, k)
  {
    hide LedgerOk, TasksOk, SessionsOk, UnownedOk, StoreOk, Materialized, Current;
    forall i | 0 <= i < |s.pcs| && i < |cfg.tasks| && cfg.tasks[i].Session() == k ensures !s.pcs[i].Persisted() {
      if s.pcs[i].Persisted() {
        PersistedIsTouched(cfg, base, s, order, touched, i);
      }
    }
    UntouchedStaysCurrent(cfg, base, s, k);
  }

  ghost predicate HandedOver(cfg: Config, s: State, s': State, order: seq<string>) {
    && s'.phase.Aggregating? && s'.tables == s.tables && s'.history == s.history
    && s'.inStore == s.inStore && s'.pcs == s.pcs && AggSemaphoreOk(cfg, s')
    && |s'.phase.touched| == |s'.phase.aggs| == |order|
    && Distinct(order) && (forall p | p in s.inStore :: p in order)
    && (forall n | 0 <= n < |order| ::
        order[n] in order && order[n] in s.inStore && s'.phase.touched[n] == s.inStore[order[n]])
    && (forall n | 0 <= n < |order| :: s'.phase.aggs[n] == AggWaiting)
  }

  lemma BarrierShape(cfg: Config, s: State, order: seq<string>)
    requires Enabled(cfg, s, Barrier(order))
    ensures HandedOver(cfg, s, Next(cfg, s, Barrier(order)), order)
  {
    var s' := Next(cfg, s, Barrier(order));
    assert Where(s'.phase.aggs, IsAggHolding) == {};
  }

  /** The barrier hands the second phase exactly the sessions whose rows may be out of date. */
  lemma BarrierKept(cfg: Config, base: State, s: State, order: seq<string>)
    requires WellFormed(cfg) && LedgerOk(base.tables, base.history) && Materialized(base.tables)
    requires CollectInv(cfg, base, s) && Enabled(cfg, s, Barrier(order))
    ensures AggInv(cfg, base, Next(cfg, s, Barrier(order)))
  {
    BarrierShape(cfg, s, order);
    assert AllFinished(s.pcs);
    hide Next, CollectInv, HandedOver, LedgerOk, Materialized, AggInv, WellFormed, AllFinished;
    HandedOverKept(cfg, base, s, Next(cfg, s, Barrier(order)), order);
  }

  lemma HandedOverKept(cfg: Config, base: State, s: State, s': State, order: seq<string>)
    requires WellFormed(cfg) && LedgerOk(base.tables, base.history) && Materialized(base.tables)
    requires CollectInv(cfg, base, s) && AllFinished(s.pcs) && HandedOver(cfg, s, s', order)
    ensures AggInv(cfg, base, s')
  {
    hide WellFormed, LedgerOk, TasksOk, UnownedOk, StoreOk, SessionsOk;
    hide Materialized, IsSummary, AggSemaphoreOk, SemaphoreOk;
    TouchedAreDistinct(s, order, s'.phase.touched);
    BarrierSettles(cfg, base, s, s');
    BarrierLeavesCurrent(cfg, base, s, s', order);
  }

  lemma BarrierSettles(cfg: Config, base: State, s: State, s': State)
    requires LedgerOk(base.tables, base.history) && Materialized(base.tables)
    requires CollectInv(cfg, base, s) && AllFinished(s.pcs)
    requires s'.tables == s.tables && s'.history == s.history && s'.inStore == s.inStore && s'.pcs == s.pcs
    ensures Settled(cfg, base, s')
  {
    RegionsAtBarrier(cfg, base, s);
    assert WinnersOk(cfg, base, s) && forall k | k in base.tables.sessions :: k in s.tables.sessions;
    hide LedgerOk, TasksOk, UnownedOk, StoreOk, Materialized, SessionsOk, WinnersOk, AllHaveRegions, SemaphoreOk;
    SettledSame(cfg, base, s, s');
  }

  lemma BarrierLeavesCurrent(cfg: Config, base: State, s: State, s': State, order: seq<string>)
    requires WellFormed(cfg) && LedgerOk(base.tables, base.history) && Materialized(base.tables)
    requires CollectInv(cfg, base, s) && AllFinished(s.pcs)
    requires s'.phase.Aggregating? && s'.tables == s.tables && |s'.phase.touched| == |order|
    requires forall p | p in s.inStore :: p in order
    requires forall n | 0 <= n < |order| :: order[n] in s.inStore && s'.phase.touched[n] == s.inStore[order[n]]
    ensures UntouchedCurrent(s')
  {
    hide CollectInv, LedgerOk, Materialized, Current, AllFinished;
    forall k | k in s'.tables.sessions && k !in s'.phase.touched ensures Current(s'.tables, k) {
      UntouchedIsCurrent(cfg, base, s, order, s'.phase.touched, k);
    }
  }

  lemma LedgerSame(tables: Tables, tables': Tables, history: History)
    requires LedgerOk(tables, history) && AllHaveRegions(tables)
    requires tables'.regions == tables.regions && tables'.sessions.Keys == tables.sessions.Keys
    ensures LedgerOk(tables', history) && AllHaveRegions(tables')
  {
    assert forall k :: k in tables'.sessions <==> k in tables.sessions;
    assert forall k :: HasRegion(tables, k) ==> HasRegion(tables', k);
  }

  lemma TasksSettledSame(cfg: Config, base: State, s: State, s': State)
    requires TasksOk(cfg, base, s) && WinnersOk(cfg, base, s)
    requires s'.tables.regions == s.tables.regions && s'.tables.sessions.Keys == s.tables.sessions.Keys
    requires s'.history == s.history && s'.inStore == s.inStore && s'.pcs == s.pcs
    ensures TasksOk(cfg, base, s') && WinnersOk(cfg, base, s')
  {
    assert forall k :: k in s'.tables.sessions <==> k in s.tables.sessions;
    forall i | 0 <= i < |s'.pcs| ensures TaskOk(cfg.tasks[i], s'.pcs[i], base, s') {
      assert TaskOk(cfg.tasks[i], s.pcs[i], base, s);
    }
    assert forall k :: HasWinner(cfg, s, k) ==> HasWinner(cfg, s', k);
  }

  /** The settled facts do not speak of session contents, the semaphore or the phase. */
  lemma SettledSame(cfg: Config, base: State, s: State, s': State)
    requires LedgerOk(s.tables, s.history) && TasksOk(cfg, base, s) && AllFinished(s.pcs) && UnownedOk(cfg, base, s)
    requires WinnersOk(cfg, base, s) && AllHaveRegions(s.tables)
    requires forall k | k in base.tables.sessions :: k in s.tables.sessions
    requires s'.tables.regions == s.tables.regions && s'.tables.sessions.Keys == s.tables.sessions.Keys
    requires s'.history == s.history && s'.inStore == s.inStore && s'.pcs == s.pcs
    ensures Settled(cfg, base, s')
  {
    hide LedgerOk, TasksOk, WinnersOk, AllHaveRegions, Owned;
    LedgerSame(s.tables, s'.tables, s.history);
    TasksSettledSame(cfg, base, s, s');
    assert forall k :: k in s'.tables.sessions <==> k in s.tables.sessions;
  }

  /** An aggregation step: reads list the rows as they are, and the write lands on an existing session row. */
  lemma AggStepKept(cfg: Config, base: State, s: State, j: nat, names: seq<string>)
    requires AggInv(cfg, base, s) && Enabled(cfg, s, AggStep(j, names))
    ensures AggInv(cfg, base, Next(cfg, s, AggStep(j, names)))
  {
    var s' := NextAgg(s, j, names);
    assert AggOk(s.tables, s.phase.touched[j], s.phase.aggs[j]);
    AggShape(s, j, names);
    AggSemaphoreKept(cfg, s, j, names);
    AggMoverOk(s, j, names);
    hide NextAgg, LedgerOk, TasksOk, UnownedOk, WinnersOk, Current, AllHaveRegions;
    SettledSame(cfg, base, s, s');
    AggOthersOk(s, s', j);
  }

  lemma AggShape(s: State, j: nat, names: seq<string>)
    requires s.phase.Aggregating? && j < |s.phase.aggs| && j < |s.phase.touched| && !s.phase.aggs[j].AggFinished?
    requires s.phase.aggs[j].ReadingRegions? ==> IsListing(s.tables.regions, s.phase.touched[j], names)
    ensures var s' := NextAgg(s, j, names);
      && s'.phase.Aggregating? && s'.phase.touched == s.phase.touched
      && |s'.phase.aggs| == |s.phase.aggs| && s'.phase.aggs == s.phase.aggs[j := s'.phase.aggs[j]]
      && s'.history == s.history && s'.inStore == s.inStore && s'.pcs == s.pcs
      && s'.tables.regions == s.tables.regions && s'.tables.sessions.Keys == s.tables.sessions.Keys
      && (forall k | k in s.tables.sessions && k != s.phase.touched[j] :: s'.tables.sessions[k] == s.tables.sessions[k])
      && s'.held ==
         s.held - (if s.phase.aggs[j].Holding() then 1 else 0) + (if s'.phase.aggs[j].Holding() then 1 else 0)
      && (s'.held > s.held ==> s.phase.aggs[j].AggWaiting?)
  {
  }

  lemma AggSemaphoreKept(cfg: Config, s: State, j: nat, names: seq<string>)
    requires Enabled(cfg, s, AggStep(j, names)) && AggSemaphoreOk(cfg, s)
    ensures NextAgg(s, j, names).phase.Aggregating? && AggSemaphoreOk(cfg, NextAgg(s, j, names))
  {
    var s' := NextAgg(s, j, names);
    AggShape(s, j, names);
    hide NextAgg;
    WhereUpdate(s.phase.aggs, j, s'.phase.aggs[j], IsAggHolding);
  }

  lemma AggMoverOk(s: State, j: nat, names: seq<string>)
    requires s.phase.Aggregating? && j < |s.phase.aggs| && j < |s.phase.touched| && !s.phase.aggs[j].AggFinished?
    requires s.phase.aggs[j].ReadingRegions? ==> IsListing(s.tables.regions, s.phase.touched[j], names)
    requires AggOk(s.tables, s.phase.touched[j], s.phase.aggs[j]) && AllHaveRegions(s.tables)
    ensures var s' := NextAgg(s, j, names);
      s'.phase.Aggregating? && j < |s'.phase.aggs| && AggOk(s'.tables, s.phase.touched[j], s'.phase.aggs[j])
  {
    var k := s.phase.touched[j];
    if s.phase.aggs[j].ReadingRegions? {
      assert HasRegion(s.tables, k);
      var rk :| rk in s.tables.regions && rk.session == k;
      assert rk.region in names;
      assert IsSummary(s.tables.regions, k, Summarize(RowsOf(s.tables.regions, k, names)));
    }
  }

  lemma AggOthersOk(s: State, s': State, j: nat)
    requires s.phase.Aggregating? && s'.phase.Aggregating? && j < |s.phase.aggs|
    requires AggsOk(s) && UntouchedCurrent(s)
    requires s'.phase.touched == s.phase.touched
    requires |s'.phase.aggs| == |s.phase.aggs| && s'.phase.aggs == s.phase.aggs[j := s'.phase.aggs[j]]
    requires s'.tables.regions == s.tables.regions && s'.tables.sessions.Keys == s.tables.sessions.Keys
    requires forall k | k in s.tables.sessions && k != s.phase.touched[j] ::
      s'.tables.sessions[k] == s.tables.sessions[k]
    requires AggOk(s'.tables, s.phase.touched[j], s'.phase.aggs[j])
    ensures AggsOk(s') && UntouchedCurrent(s')
  {
    forall m | 0 <= m < |s'.phase.aggs| ensures AggOk(s'.tables, s'.phase.touched[m], s'.phase.aggs[m]) {
      if m != j {
        assert AggOk(s.tables, s.phase.touched[m], s.phase.aggs[m]);
        assert s.phase.touched[m] != s.phase.touched[j];
      }
    }
    forall k | k in s'.tables.sessions && k !in s'.phase.touched ensures Current(s'.tables, k) {
      assert k != s.phase.touched[j];
      assert Current(s.tables, k);
    }
  }

  lemma MaterializedAtFinish(s: State)
    requires s.phase.Aggregating? && AggsOk(s) && UntouchedCurrent(s) && AllAggFinished(s.phase.aggs)
    ensures Materialized(s.tables)
  {
    hide IsSummary;
    forall k | k in s.tables.sessions ensures Current(s.tables, k) {
      if k in s.phase.touched {
        var j :| 0 <= j < |s.phase.touched| && s.phase.touched[j] == k;
        assert AggOk(s.tables, s.phase.touched[j], s.phase.aggs[j]);
      }
    }
  }

  lemma EndSettles(cfg: Config, base: State, s: State)
    requires Settled(cfg, base, s)
    ensures Settled(cfg, base, s.(phase := Ended))
  {
    hide LedgerOk, TasksOk, UnownedOk, WinnersOk, AllHaveRegions, AllFinished;
    SettledSame(cfg, base, s, s.(phase := Ended));
  }

  /** When every aggregation is done, the session table is up to date again. */
  lemma FinishKept(cfg: Config, base: State, s: State)
    requires AggInv(cfg, base, s) && Enabled(cfg, s, Finish)
    ensures EndInv(cfg, base, Next(cfg, s, Finish))
  {
    assert Next(cfg, s, Finish) == s.(phase := Ended);
    hide Settled, Materialized, AggsOk, UntouchedCurrent, Next;
    EndSettles(cfg, base, s);
    MaterializedAtFinish(s);
  }
}
