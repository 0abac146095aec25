/**
 The lambda's task loop always returns, unless somebody never stops sending items: nothing is stuck, work runs out.
 */
module AppBatcherTermination {
  import opened Counting
  import opened AppBatcher
  import opened AppBatcherTokens
  import opened AppBatcherBatches
  import opened AppBatcherRun

  /** With nothing in flight, a task between its start and its end can move. */
  lemma TaskCanMove(cfg: Config, s: State, i: nat)
    requires WellFormed(cfg) && TokensInv(s) && i < |s.pcs| && !s.pcs[i].Waiting? && !s.pcs[i].Finished?
    requires s.processed == |s.submitted| && s.mon.Idle?
    requires forall f: nat | f < |s.checks| :: !s.checks[f].running
    ensures TaskEnabled(cfg, s, i)
  {
    assert TaskOk(s, i);
    if s.pcs[i].Blocked? {
      var m :| 0 <= m < |s.submitted| && s.submitted[m].task == i && s.waits[i] == Owed(s, m);
      assert !InFlight(s, m);
    }
  }

  lemma MonitorCanDecide(s: State)
    requires TokensInv(s) && s.mon.Deciding?
    ensures DecideEnabled(s)
  {
    hide TaskOk;
  }

  /** With every task waiting or finished, the main goroutine can go on. */
  lemma MainCanMove(cfg: Config, s: State)
    requires WellFormed(cfg) && ControlInv(cfg, s) && !s.main.Closed?
    requires forall i: nat | i < |s.pcs| :: s.pcs[i].Waiting? || s.pcs[i].Finished?
    ensures MainEnabled(cfg, s)
  {
    assert Where(s.pcs, IsHolding) == {};
    assert Where(s.pcs, IsPending) == {};
  }

  lemma CheckCanMove(cfg: Config, s: State, f: nat)
    requires ControlInv(cfg, s) && TokensInv(s) && f < |s.checks| && s.checks[f].running
    ensures CheckEnabled(s, f)
  {
    OwnerHolds(cfg, s, f);
    hide TaskOk, CountersOk;
  }

  /** No deadlock: in every state before the cache batch is closed, some goroutine can move. */
  lemma NeverStuck(cfg: Config, s: State) returns (step: Step)
    requires WellFormed(cfg) && Reached(cfg, s) && !s.main.Closed?
    ensures Enabled(cfg, s, step)
  {
    ReachedInv(cfg, s);
    hide Reached, BatchInv, ControlInv, TokensInv, Enabled;
    step := MonitorOrSomebody(cfg, s);
  }

  lemma MonitorOrSomebody(cfg: Config, s: State) returns (step: Step)
    requires WellFormed(cfg) && ControlInv(cfg, s) && TokensInv(s) && !s.main.Closed?
    ensures Enabled(cfg, s, step)
  {
    ProcessedBound(s);
    hide ControlInv, TokensInv, MainEnabled, TaskEnabled, CheckEnabled, DecideEnabled;
    if s.mon.Deciding? {
      MonitorCanDecide(s);
      step := Decide(0);
    } else if s.processed < |s.submitted| {
      step := Receive;
    } else {
      step := SomebodyCanMove(cfg, s);
    }
  }

  lemma SomebodyCanMove(cfg: Config, s: State) returns (step: Step)
    requires WellFormed(cfg) && ControlInv(cfg, s) && TokensInv(s) && !s.main.Closed?
    requires s.processed == |s.submitted| && s.mon.Idle?
    ensures Enabled(cfg, s, step)
  {
    hide ControlInv, TokensInv, MainEnabled, TaskEnabled, CheckEnabled;
    if f: nat :| f < |s.checks| && s.checks[f].running {
      CheckCanMove(cfg, s, f);
      step := if s.checks[f].left > 0 then CheckSend(f) else CheckDone(f);
    } else if i: nat :| i < |s.pcs| && !s.pcs[i].Waiting? && !s.pcs[i].Finished? {
      TaskCanMove(cfg, s, i);
      step := TaskStep(i, NoSession);
    } else {
      MainCanMove(cfg, s);
      step := MainStep;
    }
  }

  lemma ProcessedBound(s: State)
    requires TokensInv(s)
    ensures s.processed <= |s.submitted|
  {
    hide TaskOk;
  }

  /** And once it is closed, none can: the run has ended. */
  lemma ClosedIsTheEnd(cfg: Config, s: State, step: Step)
    requires WellFormed(cfg) && Reached(cfg, s) && s.main.Closed?
    ensures !Enabled(cfg, s, step)
  {
    ReachedInv(cfg, s);
    ReturnedIsQuiet(cfg, s);
    hide Reached, ControlInv, TokensInv, BatchInv;
    match step
    case CheckSend(f) => assert f !in Where(s.checks, IsRunning);
    case CheckDone(f) => assert f !in Where(s.checks, IsRunning);
    case _ =>
  }

  /** Work left in a task, counting the handling of the submission it may still make. */
  function TaskWork(pc: Pc): nat {
    match pc
    case Waiting => 9
    case GettingSession => 8
    case Submitting(_) => 7
    case Blocked => 3
    case Releasing => 2
    case Signalling => 1
    case Finished => 0
  }

  function MainWork(main: Main): nat {
    match main
    case Spawning => 3
    case WaitingTasks => 2
    case Closing => 1
    case Closed => 0
  }

  function CheckWork(check: Check): nat {
    if check.running then 1 else 0
  }

  function Unread(s: State): nat {
    if s.processed <= |s.submitted| then |s.submitted| - s.processed else 0
  }

  /** Work left, but for the items that running checks send. */
  function Work(s: State): nat {
    MainWork(s.main) + Total(s.pcs, TaskWork) + 3 * Unread(s) + (if s.mon.Deciding? then 2 else 0)
    + Total(s.checks, CheckWork)
  }

  function ItemsLeft(check: Check): nat {
    check.left
  }

  function Items(s: State): nat {
    Total(s.checks, ItemsLeft)
  }

  /** The items a step adds: how many nodes a flush found to cache is not up to this program. */
  function NewItems(step: Step): nat {
    if step.Decide? then step.items else 0
  }

  lemma MainWorks(cfg: Config, s: State)
    requires ControlInv(cfg, s) && MainEnabled(cfg, s)
    ensures Work(NextMain(cfg, s)) < Work(s) && Items(NextMain(cfg, s)) == Items(s)
  {
    if s.main.Spawning? && s.next < |s.pcs| {
      TotalUpdate(s.pcs, s.next, GettingSession, TaskWork);
    }
    hide CountersOk, Total;
  }

  lemma PcFalls(cfg: Config, s: State, i: nat, reply: Reply)
    requires TaskEnabled(cfg, s, i) && s.wg > 0
    ensures var s' := NextTask(cfg, s, i, reply);
      && i < |s'.pcs|
      && TaskWork(s'.pcs[i]) + (if s.pcs[i].Submitting? then 3 else 0) < TaskWork(s.pcs[i])
  {
    match s.pcs[i]
    case GettingSession => assert NextTask(cfg, s, i, reply).pcs == s.pcs[i := NextTask(cfg, s, i, reply).pcs[i]];
    case Submitting(sub) => assert NextTask(cfg, s, i, reply).pcs == s.pcs[i := Blocked];
    case Blocked => assert NextTask(cfg, s, i, reply).pcs == s.pcs[i := Releasing];
    case Releasing => assert NextTask(cfg, s, i, reply).pcs == s.pcs[i := Signalling];
    case Signalling => assert NextTask(cfg, s, i, reply).pcs == s.pcs[i := Finished];
  }

  lemma TaskFalls(cfg: Config, s: State, i: nat, reply: Reply)
    requires TaskEnabled(cfg, s, i) && s.wg > 0
    ensures var s' := NextTask(cfg, s, i, reply);
      && i < |s'.pcs|
      && TaskWork(s'.pcs[i]) + 3 * Unread(s') < TaskWork(s.pcs[i]) + 3 * Unread(s)
  {
    PcFalls(cfg, s, i, reply);
    TaskShape(cfg, s, i, reply);
    hide NextTask, TaskWork;
  }

  lemma TaskWorks(cfg: Config, s: State, i: nat, reply: Reply)
    requires ControlInv(cfg, s) && TaskEnabled(cfg, s, i)
    ensures Work(NextTask(cfg, s, i, reply)) < Work(s) && Items(NextTask(cfg, s, i, reply)) == Items(s)
  {
    var s' := NextTask(cfg, s, i, reply);
    PendingKeepsOpen(cfg, s, i);
    TaskFalls(cfg, s, i, reply);
    TaskShape(cfg, s, i, reply);
    TaskMoves(cfg, s, i, reply);
    TotalUpdate(s.pcs, i, s'.pcs[i], TaskWork);
    hide NextTask, ControlInv, Total, TaskWork, Unread, TaskEnabled;
  }

  lemma ReceiveWorks(s: State)
    requires ReceiveEnabled(s)
    ensures Work(NextReceive(s)) < Work(s) && Items(NextReceive(s)) == Items(s)
  {
    hide Total;
  }

  lemma {:induction false} TotalAppend<T>(xs: seq<T>, x: T, f: T -> nat)
    ensures Total(xs + [x], f) == Total(xs, f) + f(x)
  {
    if xs == [] {
      assert [x][1..] == [];
    } else {
      assert (xs + [x])[1..] == xs[1..] + [x];
      TotalAppend(xs[1..], x, f);
    }
  }

  lemma DecideWorks(cfg: Config, s: State, items: nat)
    requires DecideEnabled(s)
    ensures var s' := NextDecide(cfg, s, items); Work(s') < Work(s) && Items(s') <= Items(s) + items
  {
    if Flushes(cfg, s) {
      var check := Check(s.processed - 1, s.batch, true, items);
      TotalAppend(s.checks, check, CheckWork);
      TotalAppend(s.checks, check, ItemsLeft);
    }
    hide Total;
  }

  lemma SendWorks(s: State, f: nat)
    requires CheckEnabled(s, f) && s.checks[f].left > 0 && !s.cacheClosed
    ensures Work(NextCheckSend(s, f)) == Work(s) && Items(NextCheckSend(s, f)) < Items(s)
  {
    var check := s.checks[f].(left := s.checks[f].left - 1);
    TotalUpdate(s.checks, f, check, CheckWork);
    TotalUpdate(s.checks, f, check, ItemsLeft);
    hide Total;
  }

  lemma DoneWorks(s: State, f: nat)
    requires CheckEnabled(s, f)
    ensures Work(NextCheckDone(s, f)) < Work(s) && Items(NextCheckDone(s, f)) == Items(s)
  {
    var check := s.checks[f].(running := false);
    TotalUpdate(s.checks, f, check, CheckWork);
    TotalUpdate(s.checks, f, check, ItemsLeft);
    hide Total;
  }

  /** Every step but the sending of an item uses up work; a send uses up one of the items that flushes brought in. */
  lemma StepWorks(cfg: Config, s: State, step: Step)
    requires WellFormed(cfg) && Inv(cfg, s) && Enabled(cfg, s, step)
    ensures var s' := Next(cfg, s, step);
      if step.CheckSend? then Work(s') == Work(s) && Items(s') < Items(s)
      else Work(s') < Work(s) && Items(s') <= Items(s) + NewItems(step)
  {
    hide ControlInv, TokensInv, BatchInv, Work, Items;
    match step
    case MainStep => MainWorks(cfg, s);
    case TaskStep(i, reply) => TaskWorks(cfg, s, i, reply);
    case Receive => ReceiveWorks(s);
    case Decide(items) => DecideWorks(cfg, s, items);
    case CheckSend(f) =>
      OwnerHolds(cfg, s, f);
      SendWorks(s, f);
    case CheckDone(f) => DoneWorks(s, f);
  }

  function Sends(trace: seq<Step>): nat {
    if trace == [] then 0 else (if trace[0].CheckSend? then 1 else 0) + Sends(trace[1..])
  }

  function AllItems(trace: seq<Step>): nat {
    if trace == [] then 0 else NewItems(trace[0]) + AllItems(trace[1..])
  }

  lemma {:induction false} TraceWorks(cfg: Config, s: State, trace: seq<Step>)
    requires WellFormed(cfg) && Inv(cfg, s) && Possible(cfg, s, trace)
    ensures |trace| - Sends(trace) + Work(After(cfg, s, trace)) <= Work(s)
    ensures Sends(trace) + Items(After(cfg, s, trace)) <= Items(s) + AllItems(trace)
    decreases |trace|
  {
    if trace != [] {
      hide Inv, Next, Enabled, Work, Items, NewItems;
      StepWorks(cfg, s, trace[0]);
      StepKept(cfg, s, trace[0]);
      TraceWorks(cfg, Next(cfg, s, trace[0]), trace[1..]);
    }
  }

  lemma {:induction false} AllWaiting(n: nat)
    ensures Total(seq(n, _ => Waiting), TaskWork) == 9 * n
  {
    if n > 0 {
      assert seq(n, _ => Waiting)[1..] == seq(n - 1, _ => Waiting);
      AllWaiting(n - 1);
    }
  }

  /**
   Every run is finite: nine steps for each (application, chain) pair and three for the end, besides the sends, and no
   more sends than flushes had items.
   */
  lemma RunsAreFinite(cfg: Config, trace: seq<Step>)
    requires WellFormed(cfg) && Possible(cfg, Init(cfg), trace)
    ensures |trace| - Sends(trace) <= 9 * cfg.totalApps + 3
    ensures Sends(trace) <= AllItems(trace)
  {
    InitTokens(cfg);
    InitBatches(cfg);
    TraceWorks(cfg, Init(cfg), trace);
    AllWaiting(cfg.totalApps);
    var pcs := seq(cfg.totalApps, _ => Waiting);
    assert Init(cfg).pcs == pcs;
  }
}
