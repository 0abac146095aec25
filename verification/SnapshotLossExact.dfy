/**
 Exactly how many entries of a session a snapshot run can drop: the bound of SnapshotRuns is reached in every case.
 */
module SnapshotLossExact {
  import opened Tables
  import opened Counting
  import opened SnapshotProtocol
  import opened SnapshotInvariant
  import opened SnapshotLosses
  import opened MaterializedView
  import opened SnapshotRuns
  import opened SnapshotTermination

  ghost function TasksOf(cfg: Config, k: SessionKeys): set<nat> {
    set i: nat | i < |cfg.tasks| && cfg.tasks[i].Session() == k
  }

  ghost predicate Leads(cfg: Config, s: State, t: State) {
    exists trace :: Possible(cfg, s, trace) && After(cfg, s, trace) == t
  }

  lemma LeadsNowhere(cfg: Config, s: State)
    ensures Leads(cfg, s, s)
  {
    assert Possible(cfg, s, []) && After(cfg, s, []) == s;
  }

  lemma LeadsNext(cfg: Config, s: State, t: State, step: Step)
    requires Leads(cfg, s, t) && Enabled(cfg, t, step)
    ensures Leads(cfg, s, Next(cfg, t, step))
  {
    var trace :| Possible(cfg, s, trace) && After(cfg, s, trace) == t;
    PossibleOneMore(cfg, s, trace, step);
    hide Next, Enabled;
  }

  /** A state of the first phase reached from `base`, in which session `k` has a row or not. */
  ghost predicate Midway(cfg: Config, base: State, s: State, k: SessionKeys, hasRow: bool) {
    CollectInv(cfg, base, s) && Leads(cfg, base, s) && |s.pcs| == |cfg.tasks| && (k in s.tables.sessions <==> hasRow)
  }

  /** Only the program counter of task `p` has moved. */
  predicate OnlyMoved(s: State, s': State, p: nat) {
    |s'.pcs| == |s.pcs| && forall j | 0 <= j < |s.pcs| && j != p :: s'.pcs[j] == s.pcs[j]
  }

  predicate CanStart(cfg: Config, s: State, p: nat) {
    && p < |s.pcs| == |cfg.tasks|
    && (s.pcs[p].Waiting? ==> s.held < cfg.concurrency && forall j | 0 <= j < p :: !s.pcs[j].Waiting?)
  }

  lemma StepFacts(cfg: Config, s: State, k: SessionKeys, p: nat)
    requires CanStart(cfg, s, p) && !s.pcs[p].Finished?
    ensures var s', hasRow := NextTask(cfg.tasks[p], s, p), k in s.tables.sessions;
      && OnlyMoved(s, s', p) && CanStart(cfg, s', p) && TaskRank(s'.pcs[p]) < TaskRank(s.pcs[p])
      && s'.phase == s.phase
      && (hasRow ==> k in s'.tables.sessions)
      && (k in s'.tables.sessions && !hasRow ==> cfg.tasks[p].Session() == k && s.pcs[p].CreatingSession?)
  {
    StepShape(cfg.tasks[p], s, p);
    TaskRankFalls(cfg.tasks[p], s, p);
    MoverRaces(cfg.tasks[p], s, p);
    hide NextTask;
  }

  /** One step of a task, with what the following proofs need of it. */
  lemma OneStep(cfg: Config, base: State, s: State, k: SessionKeys, hasRow: bool, p: nat)
    requires WellFormed(cfg) && Midway(cfg, base, s, k, hasRow) && CanStart(cfg, s, p) && !s.pcs[p].Finished?
    ensures Enabled(cfg, s, TaskStep(p))
    ensures var s' := Next(cfg, s, TaskStep(p));
      && s' == NextTask(cfg.tasks[p], s, p)
      && Midway(cfg, base, s', k, k in s'.tables.sessions) && OnlyMoved(s, s', p) && CanStart(cfg, s', p)
      && TaskRank(s'.pcs[p]) < TaskRank(s.pcs[p])
      && (hasRow ==> k in s'.tables.sessions)
      && (k in s'.tables.sessions && !hasRow ==> cfg.tasks[p].Session() == k && s.pcs[p].CreatingSession?)
  {
    assert Enabled(cfg, s, TaskStep(p));
    assert Next(cfg, s, TaskStep(p)) == NextTask(cfg.tasks[p], s, p);
    hide NextTask, Next, Enabled, CollectInv, Leads, TaskRank;
    TaskStepKept(cfg, base, s, p);
    LeadsNext(cfg, base, s, TaskStep(p));
    StepFacts(cfg, s, k, p);
  }

  /** A task of another session runs from start to end while everybody else stands still. */
  lemma RunAlone(cfg: Config, base: State, s: State, k: SessionKeys, p: nat) returns (s': State)
    requires WellFormed(cfg) && Midway(cfg, base, s, k, false) && CanStart(cfg, s, p) && cfg.tasks[p].Session() != k
    ensures Midway(cfg, base, s', k, false) && OnlyMoved(s, s', p) && s'.pcs[p].Finished?
    decreases TaskRank(s.pcs[p])
  {
    if s.pcs[p].Finished? {
      s' := s;
    } else {
      OneStep(cfg, base, s, k, false, p);
      hide Midway, Enabled, Next, TaskRank;
      s' := RunAlone(cfg, base, Next(cfg, s, TaskStep(p)), k, p);
    }
  }

  predicate BeforeRace(pc: Pc) {
    pc.Waiting? || pc.LoadingKey? || pc.ReadingSession?
  }

  lemma StillBefore(cfg: Config, base: State, s: State, k: SessionKeys, p: nat)
    requires WellFormed(cfg) && Midway(cfg, base, s, k, false) && p < |s.pcs| && cfg.tasks[p].Session() == k
    requires BeforeRace(s.pcs[p])
    ensures var s' := NextTask(cfg.tasks[p], s, p);
      p < |s'.pcs| && (BeforeRace(s'.pcs[p]) || s'.pcs[p].CreatingSession?)
  {
    assert DashFree(k) && StoreOk(s);
    hide CollectInv, WellFormed, Leads;
    if Printed(k) in s.inStore {
      KeySeen(s, k);
    }
    hide StoreOk, Printed;
  }

  /** While the row is missing, a task of the session gets as far as creating it. */
  lemma RunToRace(cfg: Config, base: State, s: State, k: SessionKeys, p: nat) returns (s': State)
    requires WellFormed(cfg) && Midway(cfg, base, s, k, false) && CanStart(cfg, s, p) && cfg.tasks[p].Session() == k
    requires BeforeRace(s.pcs[p]) || s.pcs[p].CreatingSession?
    ensures Midway(cfg, base, s', k, false) && OnlyMoved(s, s', p) && s'.pcs[p].CreatingSession?
    decreases TaskRank(s.pcs[p])
  {
    if s.pcs[p].CreatingSession? {
      s' := s;
    } else {
      OneStep(cfg, base, s, k, false, p);
      StillBefore(cfg, base, s, k, p);
      hide Midway, Enabled, Next, NextTask, TaskRank;
      s' := RunToRace(cfg, base, Next(cfg, s, TaskStep(p)), k, p);
    }
  }

  /** The first `p` tasks have been started: those of session `k` are about to create its row, the others are done. */
  ghost predicate Staged(cfg: Config, base: State, s: State, k: SessionKeys, p: nat, racers: set<nat>) {
    && Midway(cfg, base, s, k, false) && p <= |s.pcs|
    && (forall j: nat :: j in racers <==> j < p && cfg.tasks[j].Session() == k)
    && (forall j: nat | j < p :: if j in racers then s.pcs[j].CreatingSession? else s.pcs[j].Finished?)
    && (forall j: nat | p <= j < |s.pcs| :: s.pcs[j].Waiting?)
  }

  lemma StagedHolds(cfg: Config, base: State, s: State, k: SessionKeys, p: nat, racers: set<nat>)
    requires Staged(cfg, base, s, k, p, racers)
    ensures s.held == |racers|
  {
    assert SemaphoreOk(cfg, s);
    hide CollectInv, Leads;
    assert Where(s.pcs, IsHolding) == racers;
  }

  lemma StageNext(cfg: Config, base: State, s: State, k: SessionKeys, p: nat, racers: set<nat>)
    returns (s': State, racers': set<nat>)
    requires WellFormed(cfg) && Staged(cfg, base, s, k, p, racers) && p < |s.pcs| && |racers| < cfg.concurrency
    ensures Staged(cfg, base, s', k, p + 1, racers')
    ensures racers' == if cfg.tasks[p].Session() == k then racers + {p} else racers
  {
    StagedHolds(cfg, base, s, k, p, racers);
    assert |s.pcs| == |cfg.tasks| && s.pcs[p].Waiting? && forall j | 0 <= j < p :: !s.pcs[j].Waiting?;
    racers' := if cfg.tasks[p].Session() == k then racers + {p} else racers;
    if cfg.tasks[p].Session() == k {
      s' := RunToRace(cfg, base, s, k, p);
    } else {
      s' := RunAlone(cfg, base, s, k, p);
    }
    StageMoved(cfg, base, s, s', k, p, racers, racers');
  }

  lemma StageMoved(
    cfg: Config, base: State, s: State, s': State, k: SessionKeys, p: nat, racers: set<nat>, racers': set<nat>)
    requires Staged(cfg, base, s, k, p, racers) && p < |s.pcs| && |s.pcs| == |cfg.tasks|
    requires Midway(cfg, base, s', k, false) && OnlyMoved(s, s', p)
    requires racers' == if cfg.tasks[p].Session() == k then racers + {p} else racers
    requires if cfg.tasks[p].Session() == k then s'.pcs[p].CreatingSession? else s'.pcs[p].Finished?
    ensures Staged(cfg, base, s', k, p + 1, racers')
  {
    hide Midway;
  }

  /** However the tasks are ordered, `want` of a session's can be brought to the race, one unit each. */
  lemma StageRace(cfg: Config, base: State, k: SessionKeys, want: nat) returns (s: State, p: nat, racers: set<nat>)
    requires WellFormed(cfg) && Staged(cfg, base, base, k, 0, {})
    requires want <= cfg.concurrency && want <= |TasksOf(cfg, k)|
    ensures Staged(cfg, base, s, k, p, racers) && |racers| == want
  {
    s, p, racers := base, 0, {};
    while |racers| < want
      invariant Staged(cfg, base, s, k, p, racers) && |racers| <= want && p <= |cfg.tasks| == |s.pcs|
      decreases |cfg.tasks| - p
    {
      if p == |cfg.tasks| {
        AllAreRacers(cfg, base, s, k, racers);
      }
      s, racers := StageNext(cfg, base, s, k, p, racers);
      p := p + 1;
    }
  }

  lemma AllAreRacers(cfg: Config, base: State, s: State, k: SessionKeys, racers: set<nat>)
    requires Staged(cfg, base, s, k, |cfg.tasks|, racers)
    ensures racers == TasksOf(cfg, k)
  {
    hide Midway;
  }

  /** Creating the row: the first one does, and whoever comes later loses its entry. */
  lemma CreateStep(t: Task, s: State, i: nat)
    requires i < |s.pcs| && s.pcs[i].CreatingSession?
    ensures var s' := NextTask(t, s, i);
      && t.Session() in s'.tables.sessions && i < |s'.pcs|
      && (t.Session() in s.tables.sessions ==> s'.pcs[i] == Returning(SessionLost(Duplicate)))
  {
  }

  /** Once somebody has created the row, all others about to do so find a duplicate. */
  lemma DropAll(cfg: Config, base: State, s: State, k: SessionKeys, left: set<nat>) returns (s': State)
    requires WellFormed(cfg) && Midway(cfg, base, s, k, true)
    requires forall j | j in left ::
      j < |s.pcs| == |cfg.tasks| && s.pcs[j].CreatingSession? && cfg.tasks[j].Session() == k
    ensures Midway(cfg, base, s', k, true) && left + DroppedOf(cfg, s, k) <= DroppedOf(cfg, s', k)
    decreases |left|
  {
    if left == {} {
      s' := s;
    } else {
      var j :| j in left;
      OneStep(cfg, base, s, k, true, j);
      CreateStep(cfg.tasks[j], s, j);
      var t := Next(cfg, s, TaskStep(j));
      assert k in s.tables.sessions;
      hide Enabled, Next, NextTask, Midway, TaskRank;
      DroppedMore(cfg, s, t, k, j);
      hide DroppedOf;
      s' := DropAll(cfg, base, t, k, left - {j});
    }
  }

  lemma DroppedMore(cfg: Config, s: State, t: State, k: SessionKeys, j: nat)
    requires j < |s.pcs| == |cfg.tasks| && OnlyMoved(s, t, j) && cfg.tasks[j].Session() == k
    requires t.pcs[j].Dropped()
    ensures DroppedOf(cfg, s, k) + {j} <= DroppedOf(cfg, t, k)
  {
  }

  /** One racer wins, the others lose. */
  lemma Race(cfg: Config, base: State, s: State, k: SessionKeys, p: nat, racers: set<nat>)
    returns (s': State, dropped: set<nat>)
    requires WellFormed(cfg) && Staged(cfg, base, s, k, p, racers) && racers != {}
    ensures CollectInv(cfg, base, s') && Leads(cfg, base, s')
    ensures dropped <= DroppedOf(cfg, s', k) && |dropped| == |racers| - 1
  {
    var w :| w in racers;
    dropped := racers - {w};
    assert |s.pcs| == |cfg.tasks|;
    hide CollectInv, Leads;
    OneStep(cfg, base, s, k, false, w);
    CreateStep(cfg.tasks[w], s, w);
    var t := Next(cfg, s, TaskStep(w));
    hide Enabled, Next, NextTask, TaskRank;
    assert forall j | j in dropped :: t.pcs[j] == s.pcs[j];
    s' := DropAll(cfg, base, t, k, dropped);
    hide DroppedOf;
  }

  /** What has been dropped stays dropped. */
  lemma DroppedStays(cfg: Config, s: State, step: Step, k: SessionKeys)
    requires Enabled(cfg, s, step)
    ensures DroppedOf(cfg, s, k) <= DroppedOf(cfg, Next(cfg, s, step), k)
  {
    match step
    case TaskStep(i) =>
      StepShape(cfg.tasks[i], s, i);
      MoverStaysDropped(cfg.tasks[i], s, i);
      hide NextTask;
    case AggStep(j, names) =>
      AggShape(s, j, names);
      hide NextAgg;
    case _ =>
  }

  lemma MoverStaysDropped(t: Task, s: State, i: nat)
    requires i < |s.pcs| && !s.pcs[i].Finished?
    ensures i < |NextTask(t, s, i).pcs| && (s.pcs[i].Dropped() ==> NextTask(t, s, i).pcs[i].Dropped())
  {
  }

  /** From every state a run can be brought to its end. */
  lemma RunToEnd(cfg: Config, base: State, s: State, k: SessionKeys) returns (e: State)
    requires WellFormed(cfg) && GoodTables(base.tables, base.history) && Inv(cfg, base, s) && Leads(cfg, base, s)
    ensures e.phase.Ended? && Leads(cfg, base, e) && DroppedOf(cfg, s, k) <= DroppedOf(cfg, e, k)
    decreases PhaseRank(s), Work(s)
  {
    if s.phase.Ended? {
      e := s;
    } else {
      hide WellFormed, GoodTables, Leads, DroppedOf, Inv, Next, Enabled, Work, PhaseRank;
      var step := NeverStuck(cfg, base, s);
      StepDecreases(cfg, s, step);
      StepKept(cfg, base, s, step);
      LeadsNext(cfg, base, s, step);
      DroppedStays(cfg, s, step, k);
      e := RunToEnd(cfg, base, Next(cfg, s, step), k);
    }
  }

  /** The most entries of session `k` that a run can drop. */
  ghost function MostDropped(cfg: Config, tables: Tables, k: SessionKeys): int {
    if k in tables.sessions || TasksOf(cfg, k) == {} then 0
    else if |TasksOf(cfg, k)| < cfg.concurrency then |TasksOf(cfg, k)| - 1
    else cfg.concurrency - 1
  }

  lemma NeverMore(cfg: Config, tables: Tables, history: History, trace: seq<Step>, k: SessionKeys)
    requires IsRun(cfg, tables, history, trace)
    ensures |DroppedOf(cfg, EndOf(cfg, tables, history, trace), k)| <= MostDropped(cfg, tables, k)
  {
    var s := EndOf(cfg, tables, history, trace);
    RunLosses(cfg, tables, history, trace, k);
    hide IsRun, EndOf;
    var dropped, all := DroppedOf(cfg, s, k), TasksOf(cfg, k);
    if i: nat :| i < |cfg.tasks| && cfg.tasks[i].Session() == k {
      var kept: nat :| kept < |cfg.tasks| && cfg.tasks[kept].Session() == k && KeptEntry(s, kept);
      assert dropped <= all - {kept} && kept in all;
      SubsetSize(dropped, all - {kept});
    } else {
      assert dropped == {};
    }
  }

  lemma StageOf(cfg: Config, tables: Tables, history: History, k: SessionKeys)
    requires WellFormed(cfg) && GoodTables(tables, history) && k !in tables.sessions
    ensures var base := Init(cfg, tables, history); Staged(cfg, base, base, k, 0, {})
  {
    var base := Init(cfg, tables, history);
    StartsWell(cfg, tables, history);
    LeadsNowhere(cfg, base);
    hide WellFormed, GoodTables, CollectInv, Leads;
  }

  /** A state of the first phase in which as many have been dropped as can be. */
  lemma DropMost(cfg: Config, tables: Tables, history: History, k: SessionKeys) returns (s: State)
    requires WellFormed(cfg) && GoodTables(tables, history)
    ensures var base := Init(cfg, tables, history);
      Inv(cfg, base, s) && Leads(cfg, base, s) && MostDropped(cfg, tables, k) <= |DroppedOf(cfg, s, k)|
  {
    var base := Init(cfg, tables, history);
    if k in tables.sessions || TasksOf(cfg, k) == {} {
      s := base;
      StartsWell(cfg, tables, history);
      LeadsNowhere(cfg, base);
    } else {
      StageOf(cfg, tables, history, k);
      var want := MostDropped(cfg, tables, k) + 1;
      hide Staged, GoodTables, Leads, CollectInv, TasksOf, DroppedOf, Init;
      var staged, p, racers := StageRace(cfg, base, k, want);
      var dropped;
      s, dropped := Race(cfg, base, staged, k, p, racers);
      SubsetSize(dropped, DroppedOf(cfg, s, k));
      InFirstPhase(cfg, base, s);
    }
  }

  lemma InFirstPhase(cfg: Config, base: State, s: State)
    requires CollectInv(cfg, base, s)
    ensures Inv(cfg, base, s)
  {
  }

  /**
   The losses of a run, exactly: whatever the tables, the history and the order in which the tasks are started, every
   interleaving drops at most this many entries of session `k`, and some interleaving drops that many.
   */
  lemma LossesExactly(cfg: Config, tables: Tables, history: History, k: SessionKeys)
    requires WellFormed(cfg) && GoodTables(tables, history)
    ensures forall trace | IsRun(cfg, tables, history, trace) ::
      |DroppedOf(cfg, EndOf(cfg, tables, history, trace), k)| <= MostDropped(cfg, tables, k)
    ensures exists trace ::
      && IsRun(cfg, tables, history, trace)
      && |DroppedOf(cfg, EndOf(cfg, tables, history, trace), k)| == MostDropped(cfg, tables, k)
  {
    forall trace | IsRun(cfg, tables, history, trace)
      ensures |DroppedOf(cfg, EndOf(cfg, tables, history, trace), k)| <= MostDropped(cfg, tables, k)
    {
      NeverMore(cfg, tables, history, trace, k);
    }
    var trace := DropsMost(cfg, tables, history, k);
  }

  lemma DropsMost(cfg: Config, tables: Tables, history: History, k: SessionKeys) returns (trace: seq<Step>)
    requires WellFormed(cfg) && GoodTables(tables, history)
    ensures IsRun(cfg, tables, history, trace)
    ensures |DroppedOf(cfg, EndOf(cfg, tables, history, trace), k)| == MostDropped(cfg, tables, k)
  {
    var base := Init(cfg, tables, history);
    var s := DropMost(cfg, tables, history, k);
    hide WellFormed, GoodTables, DroppedOf, MostDropped, Inv;
    var e := RunToEnd(cfg, base, s, k);
    trace :| Possible(cfg, base, trace) && After(cfg, base, trace) == e;
    hide Possible, After;
    NeverMore(cfg, tables, history, trace, k);
    SubsetSize(DroppedOf(cfg, s, k), DroppedOf(cfg, e, k));
  }

  /** No interleaving drops an entry exactly when the row is there before, or nobody can race for it. */
  lemma WhenNothingIsDropped(cfg: Config, tables: Tables, history: History, k: SessionKeys)
    requires WellFormed(cfg) && GoodTables(tables, history)
    ensures (forall trace | IsRun(cfg, tables, history, trace) ::
              DroppedOf(cfg, EndOf(cfg, tables, history, trace), k) == {})
      <==> k in tables.sessions || cfg.concurrency == 1 || |TasksOf(cfg, k)| <= 1
  {
    forall trace | IsRun(cfg, tables, history, trace)
      ensures |DroppedOf(cfg, EndOf(cfg, tables, history, trace), k)| <= MostDropped(cfg, tables, k)
    {
      NeverMore(cfg, tables, history, trace, k);
    }
    var trace := DropsMost(cfg, tables, history, k);
    hide IsRun, EndOf, DroppedOf, GoodTables;
  }
}
