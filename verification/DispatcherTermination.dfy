/**
 The dispatcher pipeline always returns: no state is stuck, and every step uses up some of a finite amount of work.
 */
module DispatcherTermination {
  import opened Arithmetic
  import opened Counting
  import opened CachedSessions
  import opened CacheWriter
  import opened Dispatcher
  import opened DispatcherControl
  import opened DispatcherStream
  import opened DispatcherRun

  lemma FirstOnes(k: nat) returns (sample: set<nat>)
    ensures |sample| == k && forall c | c in sample :: c < k
  {
    sample := {};
    for n := 0 to k
      invariant |sample| == n && forall c | c in sample :: c < n
    {
      sample := sample + {n};
    }
  }

  /** A task between its start and its end can move, or waits for room in the open channel. */
  lemma TaskCanMove(cfg: Config, s: State, i: nat) returns (choice: Choice)
    requires ItemsOk(cfg, s) && |s.out.written| == |cfg.caches| && i < |s.pcs|
    requires !s.pcs[i].Waiting? && !s.pcs[i].Finished?
    requires s.pcs[i].Sending? ==> s.out.closed || |s.out.chan| < cfg.batchSize
    ensures TaskEnabled(cfg, s, i, choice)
  {
    assert CheckOk(cfg, s.pcs[i]);
    choice := Nothing;
    if s.pcs[i].Starting? {
      var sample := FirstOnes(Min(|cfg.caches|, cfg.maxClients));
      choice := Sample(sample);
    } else if s.pcs[i].Checking? && s.pcs[i].todo != {} {
      var c :| c in s.pcs[i].todo;
      choice := Read(c);
    } else if s.pcs[i].Dispatching? {
      choice := Rpc(DispatchError);
    }
  }

  /** With every task waiting or finished, the main goroutine can go on, unless it waits for the monitor. */
  lemma MainCanMove(cfg: Config, s: State)
    requires WellFormed(cfg) && ControlInv(cfg, s) && !s.main.Returned?
    requires forall i: nat | i < |s.pcs| :: s.pcs[i].Waiting? || s.pcs[i].Finished?
    requires s.main.WaitingMonitor? ==> s.out.mon.Exited?
    ensures MainEnabled(cfg, s)
  {
    assert Where(s.pcs, IsHolding) == {};
    assert Where(s.pcs, IsPending) == {};
  }

  lemma SomeMonitorStep(cfg: Config, s: State) returns (step: Step)
    requires WellFormed(cfg) && StreamOk(cfg, s) && !s.out.mon.Exited? && (s.out.chan != [] || s.out.closed)
    ensures Enabled(cfg, s, step)
  {
    hide StreamInv;
    var m := MonitorCanMove(cfg.batchSize, |cfg.caches|, s.out);
    step := Monitor(m);
  }

  /** No deadlock: in every state before the return, some goroutine can move. */
  lemma NeverStuck(cfg: Config, s: State) returns (step: Step)
    requires WellFormed(cfg) && Inv(cfg, s) && !s.main.Returned?
    ensures Enabled(cfg, s, step)
  {
    StreamShape(cfg.batchSize, |cfg.caches|, s.out);
    hide CountersOk, SendersOk, FailuresOk, StreamInv;
    if i: nat :| i < |s.pcs| && !s.pcs[i].Waiting? && !s.pcs[i].Finished? {
      if s.pcs[i].Sending? && !s.out.closed && |s.out.chan| >= cfg.batchSize {
        step := SomeMonitorStep(cfg, s);
      } else {
        var choice := TaskCanMove(cfg, s, i);
        step := TaskStep(i, choice);
      }
    } else if s.main.WaitingMonitor? && !s.out.mon.Exited? {
      step := SomeMonitorStep(cfg, s);
    } else {
      MainCanMove(cfg, s);
      step := MainStep;
    }
  }

  /** Work left in a task, with `k` caches: its own steps, and k + 2 for an item it may still send. */
  function TaskWork(k: nat, pc: Pc): nat {
    match pc
    case Waiting => 9 + 2 * k
    case Starting => 8 + 2 * k
    case Checking(_, todo, _) => 7 + k + |todo|
    case Dispatching => 6 + k
    case Sending(_) => 5 + k
    case CountingFailure => 3
    case Signalling(_) => 2
    case Releasing(_) => 1
    case Finished(_) => 0
  }

  function TasksWork(k: nat, pcs: seq<Pc>): nat {
    if pcs == [] then 0 else TaskWork(k, pcs[0]) + TasksWork(k, pcs[1..])
  }

  lemma {:induction false} TasksWorkUpdate(k: nat, pcs: seq<Pc>, i: nat, pc: Pc)
    requires i < |pcs|
    ensures TasksWork(k, pcs[i := pc]) == TasksWork(k, pcs) - TaskWork(k, pcs[i]) + TaskWork(k, pc)
  {
    if i == 0 {
      assert pcs[0 := pc][1..] == pcs[1..];
    } else {
      assert pcs[i := pc][1..] == pcs[1..][i - 1 := pc];
      TasksWorkUpdate(k, pcs[1..], i - 1, pc);
    }
  }

  function MainWork(main: Main): nat {
    match main
    case Spawning => 4
    case WaitingTasks => 3
    case Closing => 2
    case WaitingMonitor => 1
    case Returned => 0
  }

  function Work(cfg: Config, s: State): nat {
    var k := |cfg.caches|;
    MainWork(s.main) + TasksWork(k, s.pcs) + WriterWork(k, s.out)
  }

  lemma TaskWorkFalls(cfg: Config, s: State, i: nat, choice: Choice)
    requires ControlInv(cfg, s) && TaskEnabled(cfg, s, i, choice)
    ensures var s', k := NextTask(cfg, s, i, choice), |cfg.caches|;
      && TaskMoved(s, s', i)
      && TaskWork(k, s'.pcs[i]) + (if s'.out == s.out then 0 else k + 2) < TaskWork(k, s.pcs[i])
  {
    TaskMoves(cfg, s, i, choice);
    if s.pcs[i].Pending() {
      PendingKeepsOpen(cfg, s, i);
    }
    hide ControlInv, CacheNow, IsFresh, KeyOf;
  }

  lemma TaskDecreases(cfg: Config, s: State, i: nat, choice: Choice)
    requires ControlInv(cfg, s) && TaskEnabled(cfg, s, i, choice)
    ensures Work(cfg, NextTask(cfg, s, i, choice)) < Work(cfg, s)
  {
    var s', k := NextTask(cfg, s, i, choice), |cfg.caches|;
    TaskWorkFalls(cfg, s, i, choice);
    hide ControlInv, NextTask, TaskWork, WriterWork;
    TasksWorkUpdate(k, s.pcs, i, s'.pcs[i]);
    if s'.out != s.out {
      SendWork(k, s.out, s.pcs[i].item);
    }
  }

  lemma MainDecreases(cfg: Config, s: State)
    requires WellFormed(cfg) && ControlInv(cfg, s) && MainEnabled(cfg, s)
    ensures Work(cfg, NextMain(cfg, s)) < Work(cfg, s)
  {
    hide CountersOk, Times, Remaining;
    if s.main.Spawning? && s.next < |s.pcs| {
      TasksWorkUpdate(|cfg.caches|, s.pcs, s.next, Starting);
    }
  }

  /** Every step uses up work. */
  lemma StepDecreases(cfg: Config, s: State, step: Step)
    requires WellFormed(cfg) && Inv(cfg, s) && Enabled(cfg, s, step)
    ensures Work(cfg, Next(cfg, s, step)) < Work(cfg, s)
  {
    hide ControlInv, StreamInv, AccountInv, NextMain, NextTask;
    match step
    case MainStep => MainDecreases(cfg, s);
    case TaskStep(i, choice) => TaskDecreases(cfg, s, i, choice);
    case Monitor(m) =>
      WriterDecreases(cfg.batchSize, |cfg.caches|, s.out, m);
      hide WriterWork, TasksWork, Stepped;
  }

  /** No run is longer than the work it starts with, so together with NeverStuck every run reaches the return. */
  lemma {:induction false} RunsAreFinite(cfg: Config, s: State, trace: seq<Step>)
    requires WellFormed(cfg) && Inv(cfg, s) && Possible(cfg, s, trace)
    ensures |trace| + Work(cfg, After(cfg, s, trace)) <= Work(cfg, s)
    decreases |trace|
  {
    if trace != [] {
      hide Inv, Next, Enabled, Work;
      StepDecreases(cfg, s, trace[0]);
      StepKept(cfg, s, trace[0]);
      RunsAreFinite(cfg, Next(cfg, s, trace[0]), trace[1..]);
    }
  }
}
