/** Whole snapshot runs, and sequences of runs that do not overlap. */
module SnapshotRuns {
  import opened Tables
  import opened SnapshotProtocol
  import opened SnapshotInvariant
  import opened SnapshotLosses
  import opened MaterializedView

  ghost predicate Inv(cfg: Config, base: State, s: State) {
    match s.phase
    case Collecting => CollectInv(cfg, base, s)
    case Aggregating(_, _) => AggInv(cfg, base, s)
    case Ended => EndInv(cfg, base, s)
  }

  /** The tables as one run must find them, and as it leaves them. */
  ghost predicate GoodTables(tables: Tables, history: History) {
    LedgerOk(tables, history) && Materialized(tables)
  }

  lemma StepKept(cfg: Config, base: State, s: State, step: Step)
    requires WellFormed(cfg) && GoodTables(base.tables, base.history)
    requires Inv(cfg, base, s) && Enabled(cfg, s, step)
    ensures Inv(cfg, base, Next(cfg, s, step))
  {
    hide CollectInv, AggInv, EndInv, WellFormed, LedgerOk, Materialized;
    match step
    case TaskStep(i) =>
      TaskStepKept(cfg, base, s, i);
      CollectsOn(cfg, base, Next(cfg, s, step));
    case Barrier(order) =>
      BarrierKept(cfg, base, s, order);
    case AggStep(j, names) =>
      AggStepKept(cfg, base, s, j, names);
      AggregatesOn(cfg, base, Next(cfg, s, step));
    case Finish =>
      FinishKept(cfg, base, s);
  }

  lemma CollectsOn(cfg: Config, base: State, s: State)
    requires CollectInv(cfg, base, s)
    ensures Inv(cfg, base, s)
  {
  }

  lemma AggregatesOn(cfg: Config, base: State, s: State)
    requires AggInv(cfg, base, s)
    ensures Inv(cfg, base, s)
  {
  }

  /** Losses are settled in the first phase. */
  lemma LossStepKept(cfg: Config, base: State, s: State, step: Step, k: SessionKeys)
    requires WellFormed(cfg) && Inv(cfg, base, s) && Enabled(cfg, s, step) && LossInv(cfg, base, s, k)
    ensures LossInv(cfg, base, Next(cfg, s, step), k)
  {
    hide CollectInv, AggInv, EndInv, WellFormed;
    var s' := Next(cfg, s, step);
    match step
    case TaskStep(i) => LossesKept(cfg, base, s, i, k);
    case AggStep(j, names) => AggShape(s, j, names); LossesSame(cfg, base, s, s', k);
    case _ => LossesSame(cfg, base, s, s', k);
  }

  lemma LossesSame(cfg: Config, base: State, s: State, s': State, k: SessionKeys)
    requires LossInv(cfg, base, s, k) && s'.pcs == s.pcs && s'.tables.sessions.Keys == s.tables.sessions.Keys
    ensures LossInv(cfg, base, s', k)
  {
    assert k in s.tables.sessions <==> k in s'.tables.sessions;
    assert Racers(cfg, s', k) == Racers(cfg, s, k) && DroppedOf(cfg, s', k) == DroppedOf(cfg, s, k);
  }

  /** Every state of every interleaving satisfies the invariant. */
  lemma {:induction false} TraceKept(cfg: Config, base: State, s: State, trace: seq<Step>)
    requires WellFormed(cfg) && GoodTables(base.tables, base.history)
    requires Inv(cfg, base, s) && Possible(cfg, s, trace)
    ensures Inv(cfg, base, After(cfg, s, trace))
    decreases |trace|
  {
    if trace != [] {
      hide Inv, WellFormed, GoodTables, Enabled, Next;
      StepKept(cfg, base, s, trace[0]);
      TraceKept(cfg, base, Next(cfg, s, trace[0]), trace[1..]);
    }
  }

  lemma {:induction false} LossTraceKept(cfg: Config, base: State, s: State, trace: seq<Step>, k: SessionKeys)
    requires WellFormed(cfg) && GoodTables(base.tables, base.history)
    requires Inv(cfg, base, s) && LossInv(cfg, base, s, k) && Possible(cfg, s, trace)
    ensures LossInv(cfg, base, After(cfg, s, trace), k)
    decreases |trace|
  {
    if trace != [] {
      hide Inv, LossInv, WellFormed, GoodTables, Enabled, Next;
      StepKept(cfg, base, s, trace[0]);
      LossStepKept(cfg, base, s, trace[0], k);
      LossTraceKept(cfg, base, Next(cfg, s, trace[0]), trace[1..], k);
    }
  }

  lemma StartsWell(cfg: Config, tables: Tables, history: History)
    requires WellFormed(cfg) && GoodTables(tables, history)
    ensures var s := Init(cfg, tables, history); Inv(cfg, s, s)
  {
    InitCollects(cfg, tables, history);
  }

  ghost predicate IsRun(cfg: Config, tables: Tables, history: History, trace: seq<Step>) {
    && WellFormed(cfg) && GoodTables(tables, history)
    && Possible(cfg, Init(cfg, tables, history), trace)
    && After(cfg, Init(cfg, tables, history), trace).phase.Ended?
  }

  /** The state a run ends in. */
  ghost function EndOf(cfg: Config, tables: Tables, history: History, trace: seq<Step>): State
    requires IsRun(cfg, tables, history, trace)
  {
    After(cfg, Init(cfg, tables, history), trace)
  }

  lemma RunEndsWell(cfg: Config, tables: Tables, history: History, trace: seq<Step>)
    requires IsRun(cfg, tables, history, trace)
    ensures EndInv(cfg, Init(cfg, tables, history), EndOf(cfg, tables, history, trace))
  {
    var base := Init(cfg, tables, history);
    StartsWell(cfg, tables, history);
    hide CollectInv, AggInv, EndInv, WellFormed, GoodTables, Possible, After;
    TraceKept(cfg, base, base, trace);
  }

  /** Task `i` of a run that ended kept its entry. */
  predicate KeptEntry(s: State, i: nat) {
    i < |s.pcs| && s.pcs[i] == Finished(Kept)
  }

  /** The history a run leaves: grown by exactly the snapshots of the entries kept. */
  ghost predicate HistoryGrownByKept(cfg: Config, history: History, s: State) {
    && (forall i: nat | i < |cfg.tasks| ::
          HistAt(s.history, cfg.tasks[i].Row()) ==
          HistAt(history, cfg.tasks[i].Row()) + if KeptEntry(s, i) then [cfg.tasks[i].app] else [])
    && (forall rk | !Owned(cfg, rk) :: HistAt(s.history, rk) == HistAt(history, rk))
  }

  lemma EndGrowth(cfg: Config, base: State, s: State)
    requires EndInv(cfg, base, s)
    ensures HistoryGrownByKept(cfg, base.history, s)
    ensures GoodTables(s.tables, s.history) && forall k | k in base.tables.sessions :: k in s.tables.sessions
  {
    hide LedgerOk, Materialized, AllHaveRegions, WinnersOk, Owned;
    forall i: nat | i < |cfg.tasks|
      ensures HistAt(s.history, cfg.tasks[i].Row()) ==
        HistAt(base.history, cfg.tasks[i].Row()) + if KeptEntry(s, i) then [cfg.tasks[i].app] else []
    {
      assert TaskOk(cfg.tasks[i], s.pcs[i], base, s);
    }
  }

  /**
   One run, in every interleaving: it leaves the session table a view of the region table, with every region row a
   replay of its history, and that history has grown by exactly the snapshots of the entries kept.
   */
  lemma RunIsGood(cfg: Config, tables: Tables, history: History, trace: seq<Step>)
    requires IsRun(cfg, tables, history, trace)
    ensures var s := EndOf(cfg, tables, history, trace);
      && GoodTables(s.tables, s.history)
      && (forall k | k in tables.sessions :: k in s.tables.sessions)
      && HistoryGrownByKept(cfg, history, s)
  {
    RunEndsWell(cfg, tables, history, trace);
    hide EndInv, IsRun, EndOf, GoodTables, HistoryGrownByKept;
    EndGrowth(cfg, Init(cfg, tables, history), EndOf(cfg, tables, history, trace));
  }

  lemma RunLossInv(cfg: Config, tables: Tables, history: History, trace: seq<Step>, k: SessionKeys)
    requires IsRun(cfg, tables, history, trace)
    ensures LossInv(cfg, Init(cfg, tables, history), EndOf(cfg, tables, history, trace), k)
  {
    var base := Init(cfg, tables, history);
    StartsWell(cfg, tables, history);
    InitHasNoLosses(cfg, tables, history, k);
    hide Inv, LossInv, WellFormed, GoodTables, Possible, After;
    LossTraceKept(cfg, base, base, trace, k);
  }

  /**
   The losses of one run, for every session and interleaving: at most `concurrency - 1` of its entries are dropped, each
   because its CreateSession found a duplicate, none if the session row was there before, and never all of them.
   */
  lemma RunLosses(cfg: Config, tables: Tables, history: History, trace: seq<Step>, k: SessionKeys)
    requires IsRun(cfg, tables, history, trace)
    ensures var s := EndOf(cfg, tables, history, trace);
      && |DroppedOf(cfg, s, k)| <= cfg.concurrency - 1
      && (forall i | i in DroppedOf(cfg, s, k) :: s.pcs[i] == Finished(SessionLost(Duplicate)))
      && (k in tables.sessions ==> DroppedOf(cfg, s, k) == {})
      && ((exists i: nat :: i < |cfg.tasks| && cfg.tasks[i].Session() == k) ==>
            exists i: nat :: i < |cfg.tasks| && cfg.tasks[i].Session() == k && KeptEntry(s, i))
  {
    var base, s := Init(cfg, tables, history), EndOf(cfg, tables, history, trace);
    RunEndsWell(cfg, tables, history, trace);
    RunLossInv(cfg, tables, history, trace, k);
    LossesWhenEnded(cfg, base, s, k);
  }

  lemma LossesWhenEnded(cfg: Config, base: State, s: State, k: SessionKeys)
    requires WellFormed(cfg) && EndInv(cfg, base, s) && LossInv(cfg, base, s, k)
    ensures |DroppedOf(cfg, s, k)| <= cfg.concurrency - 1
    ensures forall i | i in DroppedOf(cfg, s, k) :: s.pcs[i] == Finished(SessionLost(Duplicate))
    ensures k in base.tables.sessions ==> DroppedOf(cfg, s, k) == {}
    ensures (exists i: nat :: i < |cfg.tasks| && cfg.tasks[i].Session() == k) ==>
      exists i: nat :: i < |cfg.tasks| && cfg.tasks[i].Session() == k && KeptEntry(s, i)
  {
    hide LossInv, WellFormed, LedgerOk, Materialized, UnownedOk, DroppedOf, TaskOk, AllHaveRegions, WinnersOk;
    LossesAtEnd(cfg, base, s, k);
    if i: nat :| i < |cfg.tasks| && cfg.tasks[i].Session() == k {
      var w: nat :| w < |s.pcs| && w < |cfg.tasks| && cfg.tasks[w].Session() == k && s.pcs[w] == Finished(Kept);
      assert KeptEntry(s, w);
    }
  }
}
