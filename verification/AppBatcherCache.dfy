/**
 The whole lambda: the task loop with its application batcher, and the cache batch that performChecks goroutines send
 to, with its bounded channel and its monitor, up to the return of RunApplicationChecks.
 */
module AppBatcherCache {
  import opened Arithmetic
  import opened BatchWriter
  import opened CacheWriter
  import opened Counting
  import A = AppBatcher
  import AppBatcherTokens
  import Run = AppBatcherRun
  import T = AppBatcherTermination

  type CacheItem = Item<string>

  datatype Setup = Setup(app: A.Config, size: nat, caches: seq<Cache<string>>)

  datatype System = System(app: A.State, out: Writer<string>, returned: bool)

  /**
   A step of the application side, with the item it sends if it is a send; of the monitor; or the final wait's end.
   */
  datatype Move = App(step: A.Step, item: CacheItem) | Monitor(m: MonitorStep) | Return

  predicate WellFormed(setup: Setup) {
    AppBatcherTokens.WellFormed(setup.app) && setup.size >= 1
  }

  function Init(setup: Setup): System {
    System(A.Init(setup.app), Started(|setup.caches|), false)
  }

  /** A send waits for room, unless the channel is closed, when it panics. */
  predicate Enabled(setup: Setup, x: System, move: Move) {
    match move
    case App(step, _) =>
      A.Enabled(setup.app, x.app, step) && (step.CheckSend? ==> x.out.closed || |x.out.chan| < setup.size)
    case Monitor(m) => CanStep(x.out, m)
    case Return => x.app.main.Closed? && x.out.mon.Exited? && !x.returned
  }

  function NextOut(x: System, app: A.State, move: Move): Writer<string>
    requires move.App?
  {
    if move.step.CheckSend? && !x.out.closed then Send(x.out, move.item)
    else if app.cacheClosed && !x.app.cacheClosed then Close(x.out)
    else x.out
  }

  function Next(setup: Setup, x: System, move: Move): System
    requires Enabled(setup, x, move)
  {
    match move
    case App(step, _) =>
      var app := A.Next(setup.app, x.app, step);
      x.(app := app, out := NextOut(x, app, move))
    case Monitor(m) => x.(out := Stepped(x.out, setup.size, m))
    case Return => x.(returned := true)
  }

  predicate Possible(setup: Setup, x: System, trace: seq<Move>)
    decreases |trace|
  {
    trace == [] || (Enabled(setup, x, trace[0]) && Possible(setup, Next(setup, x, trace[0]), trace[1..]))
  }

  function After(setup: Setup, x: System, trace: seq<Move>): System
    requires Possible(setup, x, trace)
    decreases |trace|
  {
    if trace == [] then x else After(setup, Next(setup, x, trace[0]), trace[1..])
  }

  /** A check that has ended has sent all its items. */
  ghost predicate ChecksSentAll(s: A.State) {
    forall f | 0 <= f < |s.checks| && !s.checks[f].running :: s.checks[f].left == 0
  }

  ghost predicate Inv(setup: Setup, x: System)
    requires setup.size >= 1
  {
    && Run.Reached(setup.app, x.app)
    && StreamInv(setup.size, |setup.caches|, x.out)
    && (x.out.closed <==> x.app.cacheClosed)
    && ChecksSentAll(x.app)
    && (x.returned ==> x.app.main.Closed? && x.out.mon.Exited?)
  }

  lemma InitInv(setup: Setup)
    requires WellFormed(setup)
    ensures Inv(setup, Init(setup))
  {
    Run.ReachStart(setup.app);
    hide Run.Reached;
    StartedStream<string>(setup.size, |setup.caches|);
    hide StreamInv;
  }

  /** What every step of the application side leaves alone: ended checks, and a cache batch that has been closed. */
  ghost predicate Orderly(s: A.State, s': A.State) {
    && (ChecksSentAll(s) ==> ChecksSentAll(s'))
    && (s'.cacheClosed != s.cacheClosed ==> !s.cacheClosed)
    && (s.main.Closed? ==> s'.main == s.main && s'.cacheClosed == s.cacheClosed)
  }

  lemma MainOrderly(cfg: A.Config, s: A.State)
    requires A.MainEnabled(cfg, s)
    ensures Orderly(s, A.NextMain(cfg, s))
  {
  }

  lemma TaskOrderly(cfg: A.Config, s: A.State, i: nat, reply: A.Reply)
    requires A.TaskEnabled(cfg, s, i)
    ensures Orderly(s, A.NextTask(cfg, s, i, reply))
  {
    TaskLeaves(cfg, s, i, reply);
    hide A.NextTask;
  }

  lemma TaskLeaves(cfg: A.Config, s: A.State, i: nat, reply: A.Reply)
    requires A.TaskEnabled(cfg, s, i)
    ensures var s' := A.NextTask(cfg, s, i, reply);
      s'.checks == s.checks && s'.cacheClosed == s.cacheClosed && s'.main == s.main
  {
  }

  lemma ReceiveOrderly(s: A.State)
    requires A.ReceiveEnabled(s)
    ensures Orderly(s, A.NextReceive(s))
  {
  }

  lemma DecideOrderly(cfg: A.Config, s: A.State, items: nat)
    requires A.DecideEnabled(s)
    ensures Orderly(s, A.NextDecide(cfg, s, items))
  {
    hide A.Flushes;
  }

  lemma SendOrderly(s: A.State, f: nat)
    requires A.CheckEnabled(s, f) && s.checks[f].left > 0
    ensures Orderly(s, A.NextCheckSend(s, f)) && A.NextCheckSend(s, f).cacheClosed == s.cacheClosed
  {
  }

  lemma DoneOrderly(s: A.State, f: nat)
    requires A.CheckEnabled(s, f) && s.checks[f].left == 0
    ensures Orderly(s, A.NextCheckDone(s, f))
  {
  }

  lemma StepOrderly(cfg: A.Config, s: A.State, step: A.Step)
    requires A.Enabled(cfg, s, step)
    ensures Orderly(s, A.Next(cfg, s, step))
    ensures step.CheckSend? ==> A.Next(cfg, s, step).cacheClosed == s.cacheClosed
  {
    hide Orderly, A.NextMain, A.NextTask, A.NextReceive, A.NextDecide, A.NextCheckSend, A.NextCheckDone;
    match step
    case MainStep => MainOrderly(cfg, s);
    case TaskStep(i, reply) => TaskOrderly(cfg, s, i, reply);
    case Receive => ReceiveOrderly(s);
    case Decide(items) => DecideOrderly(cfg, s, items);
    case CheckSend(f) => SendOrderly(s, f);
    case CheckDone(f) => DoneOrderly(s, f);
  }

  /** A send finds the channel open, because its check keeps its submitter blocked. */
  lemma SendFindsOpen(setup: Setup, x: System, f: nat)
    requires WellFormed(setup) && Inv(setup, x) && A.CheckEnabled(x.app, f)
    ensures !x.out.closed && !x.app.cacheClosed
  {
    Run.ReachedInv(setup.app, x.app);
    hide Run.Reached, StreamInv, AppBatcherTokens.ControlInv, AppBatcherTokens.TokensInv;
    AppBatcherTokens.CheckKeepsOpen(setup.app, x.app, f);
  }

  lemma AppKept(setup: Setup, x: System, move: Move)
    requires WellFormed(setup) && Inv(setup, x) && Enabled(setup, x, move) && move.App?
    ensures Inv(setup, Next(setup, x, move))
  {
    var app := A.Next(setup.app, x.app, move.step);
    if move.step.CheckSend? {
      SendFindsOpen(setup, x, move.step.f);
      SendStream(setup.size, |setup.caches|, x.out, move.item);
    } else {
      CloseStream(setup.size, |setup.caches|, x.out);
    }
    hide StreamInv, Run.Reached, ChecksSentAll;
    Run.ReachNext(setup.app, x.app, move.step);
    StepOrderly(setup.app, x.app, move.step);
    hide A.Next, A.Enabled;
  }

  lemma StepKept(setup: Setup, x: System, move: Move)
    requires WellFormed(setup) && Inv(setup, x) && Enabled(setup, x, move)
    ensures Inv(setup, Next(setup, x, move))
  {
    hide StreamInv, Run.Reached, ChecksSentAll;
    match move
    case App(_, _) => AppKept(setup, x, move);
    case Monitor(m) =>
      StreamKept(setup.size, |setup.caches|, x.out, m);
      SteppedOnly(setup, x.out, m);
      hide Stepped;
    case Return =>
  }

  lemma SteppedOnly(setup: Setup, w: Writer<string>, m: MonitorStep)
    requires CanStep(w, m)
    ensures var w' := Stepped(w, setup.size, m);
      w'.closed == w.closed && w'.sent == w.sent && !w.mon.Exited?
  {
  }

  /** The items sent in a trace, in order. */
  function SentIn(trace: seq<Move>): seq<CacheItem> {
    if trace == [] then []
    else (if trace[0].App? && trace[0].step.CheckSend? then [trace[0].item] else []) + SentIn(trace[1..])
  }

  lemma StepSends(setup: Setup, x: System, move: Move)
    requires WellFormed(setup) && Inv(setup, x) && Enabled(setup, x, move)
    ensures Next(setup, x, move).out.sent == x.out.sent + SentIn([move])
  {
    assert [move][1..] == [];
    match move
    case App(step, item) =>
      if step.CheckSend? {
        SendFindsOpen(setup, x, step.f);
      }
      hide Inv, A.Next, A.Enabled;
    case Monitor(m) =>
      SteppedOnly(setup, x.out, m);
      hide Inv, Stepped;
    case Return =>
  }

  lemma {:induction false} TraceKept(setup: Setup, x: System, trace: seq<Move>)
    requires WellFormed(setup) && Inv(setup, x) && Possible(setup, x, trace)
    ensures Inv(setup, After(setup, x, trace))
    decreases |trace|
  {
    if trace != [] {
      hide Inv, Next, Enabled;
      StepKept(setup, x, trace[0]);
      TraceKept(setup, Next(setup, x, trace[0]), trace[1..]);
    }
  }

  lemma SentInSplit(trace: seq<Move>)
    requires trace != []
    ensures SentIn(trace) == SentIn([trace[0]]) + SentIn(trace[1..])
  {
    assert [trace[0]][1..] == [];
  }

  lemma {:induction false} TraceSends(setup: Setup, x: System, trace: seq<Move>)
    requires WellFormed(setup) && Inv(setup, x) && Possible(setup, x, trace)
    ensures After(setup, x, trace).out.sent == x.out.sent + SentIn(trace)
    decreases |trace|
  {
    if trace != [] {
      hide Inv, Next, Enabled;
      StepKept(setup, x, trace[0]);
      StepSends(setup, x, trace[0]);
      TraceSends(setup, Next(setup, x, trace[0]), trace[1..]);
      SentInSplit(trace);
      hide SentIn;
      Concatenated(x.out.sent, SentIn([trace[0]]), SentIn(trace[1..]));
    }
  }

  lemma Concatenated<T>(a: seq<T>, b: seq<T>, c: seq<T>)
    ensures (a + b) + c == a + (b + c)
  {
  }

  /** What holds after any trace from the start. */
  lemma FromStart(setup: Setup, trace: seq<Move>)
    requires WellFormed(setup) && Possible(setup, Init(setup), trace)
    ensures Inv(setup, After(setup, Init(setup), trace))
    ensures After(setup, Init(setup), trace).out.sent == SentIn(trace)
  {
    InitInv(setup);
    assert Init(setup).out.sent == [];
    hide Inv, Init, After, Possible, SentIn;
    TraceKept(setup, Init(setup), trace);
    TraceSends(setup, Init(setup), trace);
    assert [] + SentIn(trace) == SentIn(trace);
  }

  /**
   Every state of the lambda with its cache batch is, on the application side, one that AppBatcherRun speaks of; nothing
   has panicked; and written, pending and in the channel, one after the other, are the items sent, in order.
   */
  lemma AlwaysSafe(setup: Setup, trace: seq<Move>)
    requires WellFormed(setup) && Possible(setup, Init(setup), trace)
    ensures var x := After(setup, Init(setup), trace);
      && Run.Reached(setup.app, x.app) && !x.app.panicked
      && SentIn(trace) == x.out.flushed + Pending(x.out) + x.out.chan && |x.out.chan| <= setup.size
  {
    FromStart(setup, trace);
    var x := After(setup, Init(setup), trace);
    hide After, Possible, Init, Run.Reached, SentIn;
    Run.AlwaysSafe(setup.app, x.app);
  }

  /**
   When RunApplicationChecks returns, every task has finished, every performChecks has ended and sent all its items, and
   every cache holds its old entries overwritten by all of them, one by one in the order they were sent.
   */
  lemma EverythingWrittenAtReturn(setup: Setup, trace: seq<Move>)
    requires WellFormed(setup) && Possible(setup, Init(setup), trace) && After(setup, Init(setup), trace).returned
    ensures var x := After(setup, Init(setup), trace);
      && Run.Reached(setup.app, x.app) && x.app.main.Closed?
      && (forall i: nat | i < |x.app.pcs| :: x.app.pcs[i].Finished?)
      && (forall f | 0 <= f < |x.app.checks| :: !x.app.checks[f].running && x.app.checks[f].left == 0)
      && x.out.flushes == Chunks(SentIn(trace), setup.size)
      && |x.out.written| == |setup.caches|
      && forall c: nat | c < |setup.caches| ::
           ApplyAll(setup.caches[c], x.out.written[c]) == ApplyAll(setup.caches[c], SentIn(trace))
  {
    FromStart(setup, trace);
    hide After, Possible, Init, Inv, SentIn, Chunks, ApplyAll;
    ReturnedApp(setup, After(setup, Init(setup), trace));
    ReturnedOut(setup, After(setup, Init(setup), trace));
  }

  lemma ReturnedOut(setup: Setup, x: System)
    requires WellFormed(setup) && Inv(setup, x) && x.returned
    ensures x.out.flushes == Chunks(x.out.sent, setup.size) && |x.out.written| == |setup.caches|
    ensures forall c: nat | c < |setup.caches| :: x.out.written[c] == x.out.sent
  {
    hide Run.Reached, StreamInv;
    ExitedMeans(setup.size, |setup.caches|, x.out);
  }

  lemma ReturnedApp(setup: Setup, x: System)
    requires WellFormed(setup) && Inv(setup, x) && x.returned
    ensures Run.Reached(setup.app, x.app) && x.app.main.Closed?
    ensures forall i: nat | i < |x.app.pcs| :: x.app.pcs[i].Finished?
    ensures forall f | 0 <= f < |x.app.checks| :: !x.app.checks[f].running && x.app.checks[f].left == 0
  {
    Run.ReachedInv(setup.app, x.app);
    hide Run.Reached, Run.Inv, StreamInv;
    Run.ReturnedIsQuiet(setup.app, x.app);
    forall f: nat | f < |x.app.checks| ensures !x.app.checks[f].running {
      assert f !in Where(x.app.checks, Run.IsRunning);
    }
  }

  lemma OutCanMove(setup: Setup, x: System) returns (move: Move)
    requires WellFormed(setup) && Inv(setup, x) && !x.out.mon.Exited? && (x.out.chan != [] || x.out.closed)
    ensures Enabled(setup, x, move)
  {
    hide Run.Reached, StreamInv;
    var m := MonitorCanMove(setup.size, |setup.caches|, x.out);
    move := Monitor(m);
  }

  /**
   No deadlock: until RunApplicationChecks has returned, some goroutine can move, even if all senders wait for room.
   */
  lemma NeverStuck(setup: Setup, x: System) returns (move: Move)
    requires WellFormed(setup) && Inv(setup, x) && !x.returned
    ensures Enabled(setup, x, move)
  {
    StreamShape(setup.size, |setup.caches|, x.out);
    hide Inv, StreamInv, Run.Reached, A.Enabled;
    if x.app.main.Closed? {
      if x.out.mon.Exited? {
        move := Return;
      } else {
        ClosedTogether(setup, x);
        move := OutCanMove(setup, x);
      }
    } else {
      AppReached(setup, x);
      var step := T.NeverStuck(setup.app, x.app);
      if step.CheckSend? && !x.out.closed && |x.out.chan| >= setup.size {
        move := OutCanMove(setup, x);
      } else {
        move := App(step, Item("", ""));
      }
    }
  }

  lemma AppReached(setup: Setup, x: System)
    requires WellFormed(setup) && Inv(setup, x)
    ensures Run.Reached(setup.app, x.app) && (x.out.mon.Exited? ==> x.out.closed)
    ensures !x.out.closed ==> !x.out.mon.Exited?
  {
  }

  lemma ClosedTogether(setup: Setup, x: System)
    requires WellFormed(setup) && Inv(setup, x) && x.app.main.Closed?
    ensures x.out.closed
  {
    Run.ReachedInv(setup.app, x.app);
  }

  /** And once it has returned none can. */
  lemma ReturnedIsTheEnd(setup: Setup, x: System, move: Move)
    requires WellFormed(setup) && Inv(setup, x) && x.returned
    ensures !Enabled(setup, x, move)
  {
    hide Run.Reached, StreamInv, A.Enabled;
    match move
    case App(step, _) => T.ClosedIsTheEnd(setup.app, x.app, step);
    case _ =>
  }

  /** Work left: an item still to be sent stands for its send and its way through the channel to every cache. */
  function SystemWork(setup: Setup, x: System): nat {
    var k := |setup.caches|;
    T.Work(x.app) + Times(k + 3, T.Items(x.app)) + WriterWork(k, x.out) + if x.returned then 0 else 1
  }

  function NewWork(setup: Setup, move: Move): nat {
    Times(|setup.caches| + 3, if move.App? then T.NewItems(move.step) else 0)
  }

  lemma TimesAdds(a: nat, b: nat, c: nat)
    ensures Times(a, b + c) == Times(a, b) + Times(a, c)
  {
  }

  lemma {:induction false} TimesGrows(a: nat, b: nat, c: nat)
    requires b <= c
    ensures Times(a, b) <= Times(a, c)
  {
    TimesAdds(a, b, c - b);
  }

  lemma SendWorks(setup: Setup, x: System, move: Move)
    requires WellFormed(setup) && Inv(setup, x) && Enabled(setup, x, move) && move.App? && move.step.CheckSend?
    ensures SystemWork(setup, Next(setup, x, move)) < SystemWork(setup, x)
  {
    var k, app := |setup.caches|, A.Next(setup.app, x.app, move.step);
    Run.ReachedInv(setup.app, x.app);
    SendFindsOpen(setup, x, move.step.f);
    hide Inv, Run.Inv, A.Next, A.Enabled, T.Work, T.Items, Times, WriterWork;
    T.StepWorks(setup.app, x.app, move.step);
    SendWork(k, x.out, move.item);
    TimesGrows(k + 3, T.Items(app) + 1, T.Items(x.app));
    TimesNext(k + 3, T.Items(app));
  }

  lemma SameOutWork(setup: Setup, x: System, move: Move)
    requires Enabled(setup, x, move) && move.App? && !move.step.CheckSend?
    ensures WriterWork(|setup.caches|, Next(setup, x, move).out) == WriterWork(|setup.caches|, x.out)
  {
    hide A.Next, A.Enabled, Times, Remaining;
  }

  lemma OtherWorks(setup: Setup, x: System, move: Move)
    requires WellFormed(setup) && Run.Inv(setup.app, x.app) && Enabled(setup, x, move)
    requires move.App? && !move.step.CheckSend?
    ensures SystemWork(setup, Next(setup, x, move)) < SystemWork(setup, x) + NewWork(setup, move)
  {
    hide Run.Inv, A.Next, A.Enabled, T.Work, T.Items, T.NewItems, Times, WriterWork, NextOut;
    var k, app := |setup.caches|, A.Next(setup.app, x.app, move.step);
    SameOutWork(setup, x, move);
    T.StepWorks(setup.app, x.app, move.step);
    TimesGrows(k + 3, T.Items(app), T.Items(x.app) + T.NewItems(move.step));
    TimesAdds(k + 3, T.Items(x.app), T.NewItems(move.step));
  }

  /** Every step uses up work, but for the items that a flush brings in. */
  lemma StepWorks(setup: Setup, x: System, move: Move)
    requires WellFormed(setup) && Inv(setup, x) && Enabled(setup, x, move)
    ensures SystemWork(setup, Next(setup, x, move)) < SystemWork(setup, x) + NewWork(setup, move)
  {
    hide Run.Reached, StreamInv, Times, T.Work, T.Items, T.NewItems, WriterWork, A.Next, A.Enabled;
    match move
    case App(step, _) =>
      if step.CheckSend? {
        SendWorks(setup, x, move);
      } else {
        Run.ReachedInv(setup.app, x.app);
        hide Run.Inv, Inv;
        OtherWorks(setup, x, move);
      }
    case Monitor(m) => WriterDecreases(setup.size, |setup.caches|, x.out, m);
    case Return =>
  }

  function AllNewWork(setup: Setup, trace: seq<Move>): nat {
    if trace == [] then 0 else NewWork(setup, trace[0]) + AllNewWork(setup, trace[1..])
  }

  /**
   Every run is finite: its length is bounded by the work it starts with and `|caches| + 3` for each item that the
   performChecks calls found to send.
   */
  lemma {:induction false} RunsAreFinite(setup: Setup, x: System, trace: seq<Move>)
    requires WellFormed(setup) && Inv(setup, x) && Possible(setup, x, trace)
    ensures |trace| + SystemWork(setup, After(setup, x, trace)) <= SystemWork(setup, x) + AllNewWork(setup, trace)
    decreases |trace|
  {
    if trace != [] {
      hide Inv, Next, Enabled, SystemWork, NewWork;
      StepWorks(setup, x, trace[0]);
      StepKept(setup, x, trace[0]);
      RunsAreFinite(setup, Next(setup, x, trace[0]), trace[1..]);
    }
  }
}
