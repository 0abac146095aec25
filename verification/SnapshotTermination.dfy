/** Every snapshot run ends, whatever the scheduler does, and never gets stuck before. */
module SnapshotTermination {
  import opened Tables
  import opened Counting
  import opened SnapshotProtocol
  import opened SnapshotInvariant
  import opened MaterializedView
  import opened SnapshotRuns

  /** Steps a task still has to take, at most. */
  function TaskRank(pc: Pc): nat {
    match pc
    case Waiting => 9
    case LoadingKey => 8
    case ReadingSession => 7
    case CreatingSession => 6
    case StoringKey => 5
    case ReadingRegion => 4
    case CreatingRegion => 3
    case UpdatingRegion(_) => 3
    case Returning(_) => 2
    case Signalling(_) => 1
    case Finished(_) => 0
  }

  function AggRank(pc: AggPc): nat {
    match pc
    case AggWaiting => 5
    case ReadingRegions => 4
    case WritingSession(_) => 3
    case AggReturning(_) => 2
    case AggSignalling(_) => 1
    case AggFinished(_) => 0
  }

  function PhaseRank(s: State): nat {
    match s.phase
    case Collecting => 2
    case Aggregating(_, _) => 1
    case Ended => 0
  }

  function Work(s: State): nat {
    match s.phase
    case Collecting => Total(s.pcs, TaskRank)
    case Aggregating(_, aggs) => Total(aggs, AggRank)
    case Ended => 0
  }

  lemma TaskRankFalls(t: Task, s: State, i: nat)
    requires i < |s.pcs| && !s.pcs[i].Finished?
    ensures |NextTask(t, s, i).pcs| == |s.pcs| && TaskRank(NextTask(t, s, i).pcs[i]) < TaskRank(s.pcs[i])
  {
    StepShape(t, s, i);
  }

  lemma AggRankFalls(s: State, j: nat, names: seq<string>)
    requires s.phase.Aggregating? && j < |s.phase.aggs| && j < |s.phase.touched| && !s.phase.aggs[j].AggFinished?
    requires s.phase.aggs[j].ReadingRegions? ==> IsListing(s.tables.regions, s.phase.touched[j], names)
    ensures var s' := NextAgg(s, j, names);
      s'.phase.Aggregating? && |s'.phase.aggs| == |s.phase.aggs| && AggRank(s'.phase.aggs[j]) < AggRank(s.phase.aggs[j])
  {
  }

  /** Every step brings the run closer to its end. */
  lemma StepDecreases(cfg: Config, s: State, step: Step)
    requires Enabled(cfg, s, step)
    ensures var s' := Next(cfg, s, step);
      PhaseRank(s') < PhaseRank(s) || (PhaseRank(s') == PhaseRank(s) && Work(s') < Work(s))
  {
    match step
    case TaskStep(i) =>
      var s' := NextTask(cfg.tasks[i], s, i);
      TaskRankFalls(cfg.tasks[i], s, i);
      StepShape(cfg.tasks[i], s, i);
      hide NextTask, TaskRank;
      TotalUpdate(s.pcs, i, s'.pcs[i], TaskRank);
    case AggStep(j, names) =>
      var s' := NextAgg(s, j, names);
      AggRankFalls(s, j, names);
      AggShape(s, j, names);
      hide NextAgg, AggRank;
      TotalUpdate(s.phase.aggs, j, s'.phase.aggs[j], AggRank);
    case _ =>
  }

  /** When nobody holds a unit of the semaphore, it is not full. */
  lemma SomeTaskCanMove(cfg: Config, s: State) returns (step: Step)
    requires WellFormed(cfg) && s.phase.Collecting? && SemaphoreOk(cfg, s)
    requires |s.pcs| == |cfg.tasks| && !AllFinished(s.pcs)
    ensures Enabled(cfg, s, step)
  {
    if w: nat :| w < |s.pcs| && !s.pcs[w].Finished? && !s.pcs[w].Waiting? {
      return TaskStep(w);
    }
    assert Where(s.pcs, IsHolding) == {};
    var i: nat := 0;
    while s.pcs[i].Finished?
      invariant i < |s.pcs| && forall j | 0 <= j < i :: s.pcs[j].Finished?
      decreases |s.pcs| - i
    {
      i := i + 1;
    }
    return TaskStep(i);
  }

  lemma SomeAggCanMove(cfg: Config, s: State) returns (step: Step)
    requires WellFormed(cfg) && s.phase.Aggregating? && AggSemaphoreOk(cfg, s)
    requires |s.phase.aggs| == |s.phase.touched| && !AllAggFinished(s.phase.aggs)
    ensures Enabled(cfg, s, step)
  {
    var aggs := s.phase.aggs;
    if w: nat :| w < |aggs| && !aggs[w].AggFinished? && !aggs[w].AggWaiting? {
      var names := ListingExists(s.tables.regions, s.phase.touched[w]);
      return AggStep(w, names);
    }
    assert Where(aggs, IsAggHolding) == {};
    var j: nat := 0;
    while aggs[j].AggFinished?
      invariant j < |aggs| && forall m | 0 <= m < j :: aggs[m].AggFinished?
      decreases |aggs| - j
    {
      j := j + 1;
    }
    return AggStep(j, []);
  }

  lemma Enumerate(m: map<string, SessionKeys>) returns (order: seq<string>)
    ensures Distinct(order) && (forall p | p in order :: p in m) && (forall p | p in m :: p in order)
  {
    order := [];
    var left := m.Keys;
    while left != {}
      invariant Distinct(order)
      invariant left <= m.Keys && forall p | p in order :: p in m && p !in left
      invariant forall p | p in m :: p in left || p in order
      decreases |left|
    {
      var p :| p in left;
      left := left - {p};
      order := order + [p];
    }
  }

  /** No reachable state before the end is stuck. */
  lemma NeverStuck(cfg: Config, base: State, s: State) returns (step: Step)
    requires WellFormed(cfg) && Inv(cfg, base, s) && !s.phase.Ended?
    ensures Enabled(cfg, s, step)
  {
    hide LedgerOk, UnownedOk, SessionsOk, StoreOk, WellFormed;
    if s.phase.Collecting? {
      if AllFinished(s.pcs) {
        var order := Enumerate(s.inStore);
        step := Barrier(order);
      } else {
        step := SomeTaskCanMove(cfg, s);
      }
    } else if AllAggFinished(s.phase.aggs) {
      step := Finish;
    } else {
      step := SomeAggCanMove(cfg, s);
    }
  }

  /** A scheduler: any choice of an enabled step wherever there is one. */
  ghost predicate IsSchedule(cfg: Config, schedule: State -> Step) {
    forall s :: (exists step :: Enabled(cfg, s, step)) ==> Enabled(cfg, s, schedule(s))
  }

  lemma {:induction false} PossibleOneMore(cfg: Config, s: State, trace: seq<Step>, step: Step)
    requires Possible(cfg, s, trace) && Enabled(cfg, After(cfg, s, trace), step)
    ensures Possible(cfg, s, trace + [step])
    ensures After(cfg, s, trace + [step]) == Next(cfg, After(cfg, s, trace), step)
    decreases |trace|
  {
    if trace == [] {
      assert [step][1..] == [];
      assert trace + [step] == [step];
    } else {
      hide Next, Enabled;
      assert (trace + [step])[1..] == trace[1..] + [step];
      PossibleOneMore(cfg, Next(cfg, s, trace[0]), trace[1..], step);
    }
  }

  /**
   saveToStore: runs the protocol to its end under any scheduler, leaving the store as a run leaves it. `history` is
   what the rows of the store record so far.
   */
  method SaveToStore(store: PostgresStore, cfg: Config, history: History, schedule: State -> Step)
    returns (s: State, ghost trace: seq<Step>)
    requires WellFormed(cfg) && GoodTables(store.Contents(), history) && IsSchedule(cfg, schedule)
    modifies store
    ensures IsRun(cfg, old(store.Contents()), history, trace)
    ensures s == EndOf(cfg, old(store.Contents()), history, trace) && store.Contents() == s.tables
  {
    s := Init(cfg, store.Contents(), history);
    ghost var base := s;
    trace := [];
    StartsWell(cfg, base.tables, history);
    hide Inv, Enabled, Next, LedgerOk, Materialized;
    while !s.phase.Ended?
      invariant Possible(cfg, base, trace) && s == After(cfg, base, trace)
      invariant Inv(cfg, base, s)
      decreases PhaseRank(s), Work(s)
    {
      ghost var some := NeverStuck(cfg, base, s);
      var step := schedule(s);
      StepDecreases(cfg, s, step);
      StepKept(cfg, base, s, step);
      PossibleOneMore(cfg, base, trace, step);
      trace := trace + [step];
      s := Next(cfg, s, step);
      store.sessions, store.regions := s.tables.sessions, s.tables.regions;
    }
    store.sessions, store.regions := s.tables.sessions, s.tables.regions;
  }
}
