/** Who waits for what in the lambda batcher: semaphore, wait groups, and the one Done each submission is owed. */
module AppBatcherTokens {
  import opened Counting
  import opened AppBatcher

  predicate WellFormed(cfg: Config) {
    cfg.concurrency >= 1 && cfg.checksPerInvoke >= 1
  }

  predicate IsHolding(pc: Pc) {
    pc.Holding()
  }

  predicate IsPending(pc: Pc) {
    pc.Pending()
  }

  ghost predicate CountersOk(cfg: Config, s: State) {
    && s.held == |Where(s.pcs, IsHolding)| && s.held <= cfg.concurrency
    && s.wg == |Where(s.pcs, IsPending)|
  }

  ghost predicate ControlInv(cfg: Config, s: State) {
    && |s.pcs| == |s.waits| == cfg.totalApps && s.next <= |s.pcs|
    && (forall i | 0 <= i < |s.pcs| :: s.pcs[i].Waiting? <==> i >= s.next)
    && CountersOk(cfg, s)
    && (s.main.Spawning? || s.next == |s.pcs|)
    && (s.main.Closing? || s.main.Closed? ==> s.wg == 0)
    && (s.cacheClosed <==> s.main.Closed?)
    && !s.panicked
  }

  /** Positions the monitor is done with. */
  function Decided(s: State): int {
    s.processed - if s.mon.Deciding? then 1 else 0
  }

  ghost predicate RunningAt(s: State, m: int) {
    exists f :: 0 <= f < |s.checks| && s.checks[f].pos == m && s.checks[f].running
  }

  /** The submission at `m` still has its Done coming: in the channel, with the monitor, or owning a running check. */
  ghost predicate InFlight(s: State, m: int) {
    m >= Decided(s) || RunningAt(s, m)
  }

  ghost predicate ChecksOrdered(s: State) {
    && 0 <= Decided(s) && s.processed <= |s.submitted|
    && (forall f | 0 <= f < |s.checks| :: s.checks[f].pos < Decided(s))
    && (forall f, g | 0 <= f < g < |s.checks| :: s.checks[f].pos < s.checks[g].pos)
  }

  ghost predicate SubmittersOk(s: State) {
    && |s.pcs| == |s.waits|
    && (forall m | 0 <= m < |s.submitted| :: s.submitted[m].task < |s.pcs|)
    && (forall m, n | 0 <= m < n < |s.submitted| :: s.submitted[m].task != s.submitted[n].task)
    && (forall i | 0 <= i < |s.pcs| && s.pcs[i].Submitting? :: s.pcs[i].sub.task == i)
  }

  /** Where task `i` stands explains its wait group's counter. */
  ghost predicate TaskOk(s: State, i: int)
    requires 0 <= i < |s.pcs| == |s.waits|
  {
    match s.pcs[i]
    case Submitting(_) => s.waits[i] == 1 && NotSubmitted(s, i)
    case Blocked => exists m :: 0 <= m < |s.submitted| && s.submitted[m].task == i && s.waits[i] == Owed(s, m)
    case Waiting => s.waits[i] == 0 && NotSubmitted(s, i)
    case GettingSession => s.waits[i] == 0 && NotSubmitted(s, i)
    case _ => s.waits[i] == 0 && forall m | 0 <= m < |s.submitted| && s.submitted[m].task == i :: !InFlight(s, m)
  }

  ghost predicate NotSubmitted(s: State, i: int) {
    forall m | 0 <= m < |s.submitted| :: s.submitted[m].task != i
  }

  ghost function Owed(s: State, m: int): int {
    if InFlight(s, m) then 1 else 0
  }

  ghost predicate TokensInv(s: State) {
    ChecksOrdered(s) && SubmittersOk(s) && forall i | 0 <= i < |s.pcs| :: TaskOk(s, i)
  }

  lemma InitTokens(cfg: Config)
    requires WellFormed(cfg)
    ensures ControlInv(cfg, Init(cfg)) && TokensInv(Init(cfg))
  {
    assert Where(Init(cfg).pcs, IsHolding) == {};
    assert Where(Init(cfg).pcs, IsPending) == {};
  }

  lemma NobodyPending(cfg: Config, s: State, i: nat)
    requires CountersOk(cfg, s) && s.wg == 0 && i < |s.pcs|
    ensures !s.pcs[i].Pending()
  {
    assert Where(s.pcs, IsPending) == {};
    assert i !in Where(s.pcs, IsPending);
  }

  /** A submission in flight has its submitter blocked on a counter of exactly one. */
  lemma InFlightBlocks(s: State, m: nat)
    requires TokensInv(s) && m < |s.submitted| && InFlight(s, m)
    ensures s.pcs[s.submitted[m].task].Blocked? && s.waits[s.submitted[m].task] == 1
  {
    var i := s.submitted[m].task;
    assert TaskOk(s, i);
    hide InFlight, ChecksOrdered;
    if s.pcs[i].Blocked? {
      var n :| 0 <= n < |s.submitted| && s.submitted[n].task == i && s.waits[i] == Owed(s, n);
      assert n == m;
    }
  }

  /** A pending task keeps the cache batch open. */
  lemma PendingKeepsOpen(cfg: Config, s: State, i: nat)
    requires ControlInv(cfg, s) && i < |s.pcs| && s.pcs[i].Pending()
    ensures s.wg > 0 && !s.cacheClosed && i < s.next
  {
    assert i in Where(s.pcs, IsPending);
  }

  ghost predicate TaskMoved(s: State, s': State, i: nat) {
    && i < |s.pcs| == |s'.pcs| && s'.pcs == s.pcs[i := s'.pcs[i]] && |s'.waits| == |s.waits|
    && !s.pcs[i].Waiting? && !s'.pcs[i].Waiting?
    && s'.main == s.main && s'.next == s.next && s'.cacheClosed == s.cacheClosed && s'.panicked == s.panicked
    && s'.held == s.held - (if s.pcs[i].Holding() then 1 else 0) + (if s'.pcs[i].Holding() then 1 else 0)
    && s'.held <= s.held
    && s'.wg == s.wg - (if s.pcs[i].Pending() then 1 else 0) + (if s'.pcs[i].Pending() then 1 else 0)
    && s'.wg <= s.wg
  }

  lemma TaskMoves(cfg: Config, s: State, i: nat, reply: Reply)
    requires ControlInv(cfg, s) && TaskEnabled(cfg, s, i)
    ensures TaskMoved(s, NextTask(cfg, s, i, reply), i)
  {
    PendingKeepsOpen(cfg, s, i);
    hide ControlInv;
  }

  lemma CountersMoved(cfg: Config, s: State, s': State, i: nat)
    requires CountersOk(cfg, s) && TaskMoved(s, s', i)
    ensures CountersOk(cfg, s') && s'.wg >= 0
  {
    WhereUpdate(s.pcs, i, s'.pcs[i], IsHolding);
    WhereUpdate(s.pcs, i, s'.pcs[i], IsPending);
    hide Where;
  }

  lemma TaskControl(cfg: Config, s: State, s': State, i: nat)
    requires ControlInv(cfg, s) && TaskMoved(s, s', i)
    ensures ControlInv(cfg, s')
  {
    CountersMoved(cfg, s, s', i);
    hide CountersOk;
  }

  lemma SpawnCounters(cfg: Config, s: State)
    requires CountersOk(cfg, s) && s.next < |s.pcs| && s.pcs[s.next].Waiting? && s.held < cfg.concurrency
    ensures CountersOk(cfg,
      s.(held := s.held + 1, wg := s.wg + 1, pcs := s.pcs[s.next := GettingSession], next := s.next + 1))
  {
    WhereUpdate(s.pcs, s.next, GettingSession, IsHolding);
    WhereUpdate(s.pcs, s.next, GettingSession, IsPending);
    hide Where;
  }

  lemma SameCounters(cfg: Config, s: State, s': State)
    requires CountersOk(cfg, s) && s'.pcs == s.pcs && s'.held == s.held && s'.wg == s.wg
    ensures CountersOk(cfg, s')
  {
  }

  lemma MainControl(cfg: Config, s: State)
    requires ControlInv(cfg, s) && MainEnabled(cfg, s)
    ensures ControlInv(cfg, NextMain(cfg, s))
  {
    if s.main.Spawning? && s.next < |s.pcs| {
      SpawnCounters(cfg, s);
    } else {
      SameCounters(cfg, s, NextMain(cfg, s));
    }
    hide CountersOk;
  }

  /** Steps of the monitor and of the flushes leave the control state alone, and never panic. */
  lemma OtherControl(cfg: Config, s: State, s': State)
    requires ControlInv(cfg, s) && s'.pcs == s.pcs && s'.held == s.held && s'.wg == s.wg && |s'.waits| == |s.waits|
    requires s'.main == s.main && s'.next == s.next && s'.cacheClosed == s.cacheClosed && !s'.panicked
    ensures ControlInv(cfg, s')
  {
    SameCounters(cfg, s, s');
    hide CountersOk;
  }

  /** A running check belongs to a submission in flight, so its submitter is still pending and the cache batch open. */
  lemma CheckKeepsOpen(cfg: Config, s: State, f: nat)
    requires ControlInv(cfg, s) && TokensInv(s) && f < |s.checks| && s.checks[f].running
    ensures s.checks[f].pos < |s.submitted| && !s.cacheClosed
    ensures s.pcs[s.submitted[s.checks[f].pos].task].Blocked?
  {
    assert RunningAt(s, s.checks[f].pos);
    InFlightBlocks(s, s.checks[f].pos);
    PendingKeepsOpen(cfg, s, s.submitted[s.checks[f].pos].task);
  }

  /** Every step keeps the control invariant; in particular nothing panics. */
  lemma ControlKept(cfg: Config, s: State, step: Step)
    requires WellFormed(cfg) && ControlInv(cfg, s) && TokensInv(s) && Enabled(cfg, s, step)
    ensures ControlInv(cfg, Next(cfg, s, step))
  {
    hide ControlInv, TokensInv;
    match step
    case MainStep => MainControl(cfg, s);
    case TaskStep(i, reply) =>
      TaskMoves(cfg, s, i, reply);
      TaskControl(cfg, s, NextTask(cfg, s, i, reply), i);
    case Receive => NotPanicked(cfg, s); OtherControl(cfg, s, Next(cfg, s, step));
    case Decide(items) =>
      NotPanicked(cfg, s);
      DecidingInFlight(s);
      InFlightBlocks(s, s.processed - 1);
      OtherControl(cfg, s, Next(cfg, s, step));
    case CheckSend(f) =>
      NotPanicked(cfg, s);
      CheckKeepsOpen(cfg, s, f);
      OtherControl(cfg, s, Next(cfg, s, step));
    case CheckDone(f) =>
      NotPanicked(cfg, s);
      assert RunningAt(s, s.checks[f].pos);
      InFlightBlocks(s, s.checks[f].pos);
      OtherControl(cfg, s, Next(cfg, s, step));
  }

  lemma NotPanicked(cfg: Config, s: State)
    requires ControlInv(cfg, s)
    ensures !s.panicked
  {
  }

  lemma DecidingInFlight(s: State)
    requires s.mon.Deciding?
    ensures InFlight(s, s.processed - 1)
  {
  }

  /** The counters are explained again when the explanation of each task is unchanged, or its own step changed it. */
  lemma TasksSame(s: State, s': State)
    requires TokensInv(s) && s'.submitted == s.submitted && s'.waits == s.waits && |s'.pcs| == |s.pcs|
    requires forall m | 0 <= m < |s.submitted| :: InFlight(s', m) <==> InFlight(s, m)
    requires forall i | 0 <= i < |s.pcs| ::
      s'.pcs[i] == s.pcs[i] || (s.pcs[i].Waiting? && s'.pcs[i].GettingSession?)
    requires ChecksOrdered(s')
    ensures TokensInv(s')
  {
    hide InFlight, ChecksOrdered;
    forall i | 0 <= i < |s'.pcs| ensures TaskOk(s', i) {
      assert TaskOk(s, i);
    }
  }

  /** The submission at `m` has had its Done; nothing else changed hands. */
  lemma TasksReleased(s: State, s': State, m: nat)
    requires TokensInv(s) && m < |s.submitted| && InFlight(s, m) && !InFlight(s', m)
    requires s'.submitted == s.submitted && s'.pcs == s.pcs && s'.waits == s.waits[s.submitted[m].task := 0]
    requires forall n | 0 <= n < |s.submitted| && n != m :: InFlight(s', n) <==> InFlight(s, n)
    requires ChecksOrdered(s')
    ensures TokensInv(s')
  {
    InFlightBlocks(s, m);
    hide InFlight, ChecksOrdered;
    forall i | 0 <= i < |s'.pcs| ensures TaskOk(s', i) {
      assert TaskOk(s, i);
      if s.pcs[i].Blocked? {
        var n :| 0 <= n < |s.submitted| && s.submitted[n].task == i && s.waits[i] == Owed(s, n);
        assert s'.waits[i] == Owed(s', n);
      }
    }
  }

  lemma SubmitTokens(cfg: Config, s: State, i: nat, reply: Reply)
    requires TokensInv(s) && TaskEnabled(cfg, s, i) && s.pcs[i].Submitting?
    ensures TokensInv(NextTask(cfg, s, i, reply))
  {
    var s' := NextTask(cfg, s, i, reply);
    var last := |s.submitted|;
    assert TaskOk(s, i) && s'.submitted[last].task == i;
    assert InFlight(s', last);
    assert forall m | 0 <= m < last :: s'.submitted[m] == s.submitted[m] && (InFlight(s', m) <==> InFlight(s, m));
    hide InFlight;
    forall j | 0 <= j < |s'.pcs| ensures TaskOk(s', j) {
      if j == i {
        assert s'.waits[i] == Owed(s', last);
      } else {
        OtherTaskOk(s, s', j);
      }
    }
  }

  /** A task keeps its explanation when somebody else's submission is added. */
  lemma OtherTaskOk(s: State, s': State, j: int)
    requires 0 <= j < |s.pcs| == |s.waits| == |s'.pcs| == |s'.waits| && TaskOk(s, j)
    requires s'.pcs[j] == s.pcs[j] && s'.waits[j] == s.waits[j]
    requires |s'.submitted| == |s.submitted| + 1 && s'.submitted[|s.submitted|].task != j
    requires forall m | 0 <= m < |s.submitted| ::
      s'.submitted[m] == s.submitted[m] && (InFlight(s', m) <==> InFlight(s, m))
    ensures TaskOk(s', j)
  {
    hide InFlight;
    if s.pcs[j].Blocked? {
      var m :| 0 <= m < |s.submitted| && s.submitted[m].task == j && s.waits[j] == Owed(s, m);
      assert s'.submitted[m].task == j && s'.waits[j] == Owed(s', m);
    }
  }

  /** Without a submission the explanations of all tasks carry over word by word. */
  lemma SameTaskOk(s: State, s': State, j: int)
    requires 0 <= j < |s.pcs| == |s.waits| == |s'.pcs| == |s'.waits| && TaskOk(s, j)
    requires s'.pcs[j] == s.pcs[j] && s'.waits[j] == s.waits[j] && s'.submitted == s.submitted
    requires forall m | 0 <= m < |s.submitted| :: InFlight(s', m) <==> InFlight(s, m)
    ensures TaskOk(s', j)
  {
    hide InFlight;
  }

  ghost predicate QuietlyMoved(s: State, s': State, i: nat) {
    && s'.submitted == s.submitted && s'.processed == s.processed && s'.mon == s.mon && s'.checks == s.checks
    && i < |s.pcs| == |s'.pcs| == |s'.waits| == |s.waits|
    && (forall j | 0 <= j < |s.pcs| && j != i :: s'.pcs[j] == s.pcs[j])
    && (forall j | 0 <= j < |s.waits| && j != i :: s'.waits[j] == s.waits[j])
    && (s'.pcs[i].Submitting? ==> s'.pcs[i].sub.task == i)
    && s'.waits[i] == s.waits[i] + (if s'.pcs[i].Submitting? then 1 else 0)
    && match s'.pcs[i]
       case Submitting(_) => s.pcs[i].GettingSession?
       case Releasing => s.pcs[i].GettingSession? || (s.pcs[i].Blocked? && s.waits[i] == 0)
       case Signalling => s.pcs[i].Releasing? || s.pcs[i].Signalling?
       case Finished => s.pcs[i].Signalling?
       case _ => false
  }

  lemma QuietMoves(cfg: Config, s: State, i: nat, reply: Reply)
    requires |s.pcs| == |s.waits| && TaskEnabled(cfg, s, i) && !s.pcs[i].Submitting?
    ensures QuietlyMoved(s, NextTask(cfg, s, i, reply), i)
  {
  }

  lemma QuietFlights(s: State, s': State, i: nat, m: int)
    requires QuietlyMoved(s, s', i)
    ensures InFlight(s', m) <==> InFlight(s, m)
  {
  }

  /** A task that is through waiting is owed nothing more. */
  lemma ReleasedOwesNothing(s: State, i: nat, m: nat)
    requires SubmittersOk(s) && i < |s.pcs| && TaskOk(s, i) && s.pcs[i].Blocked? && s.waits[i] == 0
    requires m < |s.submitted| && s.submitted[m].task == i
    ensures !InFlight(s, m)
  {
    hide InFlight;
    var n :| 0 <= n < |s.submitted| && s.submitted[n].task == i && s.waits[i] == Owed(s, n);
    assert n == m;
  }

  lemma MoverOk(s: State, s': State, i: nat)
    requires SubmittersOk(s) && QuietlyMoved(s, s', i) && TaskOk(s, i)
    ensures TaskOk(s', i)
  {
    forall m: nat | m < |s.submitted| ensures InFlight(s', m) <==> InFlight(s, m) {
      QuietFlights(s, s', i, m);
    }
    if s.pcs[i].Blocked? {
      forall m: nat | m < |s.submitted| && s.submitted[m].task == i ensures !InFlight(s, m) {
        ReleasedOwesNothing(s, i, m);
      }
    }
    hide InFlight, SubmittersOk;
  }

  lemma TaskTokens(cfg: Config, s: State, i: nat, reply: Reply)
    requires TokensInv(s) && TaskEnabled(cfg, s, i)
    ensures TokensInv(NextTask(cfg, s, i, reply))
  {
    if s.pcs[i].Submitting? {
      SubmitTokens(cfg, s, i, reply);
    } else {
      QuietMoves(cfg, s, i, reply);
      hide NextTask, TaskOk, InFlight;
      QuietTokens(s, NextTask(cfg, s, i, reply), i);
    }
  }

  lemma QuietTokens(s: State, s': State, i: nat)
    requires TokensInv(s) && QuietlyMoved(s, s', i)
    ensures TokensInv(s')
  {
    MoverOk(s, s', i);
    forall m: nat | m < |s.submitted| ensures InFlight(s', m) <==> InFlight(s, m) {
      QuietFlights(s, s', i, m);
    }
    hide InFlight, TaskOk;
    forall j | 0 <= j < |s'.pcs| ensures TaskOk(s', j) {
      if j != i {
        SameTaskOk(s, s', j);
      }
    }
  }

  lemma ReceiveTokens(s: State)
    requires TokensInv(s) && ReceiveEnabled(s)
    ensures TokensInv(NextReceive(s))
  {
    var s' := NextReceive(s);
    assert forall m :: InFlight(s', m) <==> InFlight(s, m);
    TasksSame(s, s');
  }

  /** A flush keeps its submission in flight, now as the owner of the new check. */
  lemma FlushFlights(cfg: Config, s: State, items: nat, m: int)
    requires TokensInv(s) && DecideEnabled(s) && Flushes(cfg, s)
    ensures var s' := NextDecide(cfg, s, items); ChecksOrdered(s') && (InFlight(s', m) <==> InFlight(s, m))
  {
    var s', pos := NextDecide(cfg, s, items), s.processed - 1;
    assert s'.checks[|s.checks|] == Check(pos, s.batch, true, items);
    assert forall f | 0 <= f < |s.checks| :: s'.checks[f] == s.checks[f];
    assert RunningAt(s', m) <==> RunningAt(s, m) || m == pos;
  }

  /** Without a flush the submission is no longer in flight; no check can be at its position. */
  lemma NoFlushFlights(cfg: Config, s: State, s': State, m: int)
    requires TokensInv(s) && DecideEnabled(s)
    requires s'.checks == s.checks && s'.mon.Idle? && s'.processed == s.processed && s'.submitted == s.submitted
    ensures ChecksOrdered(s') && (InFlight(s', m) <==> InFlight(s, m) && m != s.processed - 1)
  {
    assert RunningAt(s', m) <==> RunningAt(s, m);
    assert !RunningAt(s, s.processed - 1);
  }

  lemma DecideTokens(cfg: Config, s: State, items: nat)
    requires TokensInv(s) && DecideEnabled(s)
    ensures TokensInv(NextDecide(cfg, s, items))
  {
    var s', pos := NextDecide(cfg, s, items), s.processed - 1;
    DecidingInFlight(s);
    if Flushes(cfg, s) {
      FlushFlights(cfg, s, items, pos);
      forall m ensures InFlight(s', m) <==> InFlight(s, m) {
        FlushFlights(cfg, s, items, m);
      }
      hide TokensInv, InFlight, ChecksOrdered;
      TasksSame(s, s');
    } else {
      InFlightBlocks(s, pos);
      NoFlushFlights(cfg, s, s', pos);
      forall m ensures InFlight(s', m) <==> InFlight(s, m) && m != pos {
        NoFlushFlights(cfg, s, s', m);
      }
      hide TokensInv, InFlight, ChecksOrdered;
      TasksReleased(s, s', pos);
    }
  }

  /** A finished check gives up exactly its own submission, because no two checks share one. */
  lemma DoneFlights(s: State, f: nat, s': State, m: int)
    requires TokensInv(s) && f < |s.checks| && s.checks[f].running
    requires s'.checks == s.checks[f := s.checks[f].(running := false)]
    requires s'.mon == s.mon && s'.processed == s.processed && s'.submitted == s.submitted
    ensures ChecksOrdered(s') && (InFlight(s', m) <==> InFlight(s, m) && m != s.checks[f].pos)
  {
    var pos := s.checks[f].pos;
    assert forall g | 0 <= g < |s.checks| && g != f :: s'.checks[g] == s.checks[g];
    assert forall g | 0 <= g < |s.checks| :: s'.checks[g].pos == s.checks[g].pos;
    if RunningAt(s, m) && m != pos {
      var g :| 0 <= g < |s.checks| && s.checks[g].pos == m && s.checks[g].running;
      assert s'.checks[g].running;
    }
    assert !RunningAt(s', pos);
  }

  lemma DoneTokens(s: State, f: nat)
    requires TokensInv(s) && CheckEnabled(s, f)
    ensures TokensInv(NextCheckDone(s, f))
  {
    var s', pos := NextCheckDone(s, f), s.checks[f].pos;
    assert RunningAt(s, pos);
    InFlightBlocks(s, pos);
    DoneFlights(s, f, s', pos);
    forall m ensures InFlight(s', m) <==> InFlight(s, m) && m != pos {
      DoneFlights(s, f, s', m);
    }
    hide TokensInv, InFlight, ChecksOrdered;
    TasksReleased(s, s', pos);
  }

  lemma SendTokens(s: State, f: nat)
    requires TokensInv(s) && CheckEnabled(s, f) && s.checks[f].left > 0
    ensures TokensInv(NextCheckSend(s, f))
  {
    var s' := NextCheckSend(s, f);
    assert |s'.checks| == |s.checks|;
    assert forall g | 0 <= g < |s.checks| ::
        s'.checks[g].pos == s.checks[g].pos && s'.checks[g].running == s.checks[g].running;
    assert forall m :: RunningAt(s', m) <==> RunningAt(s, m);
    TasksSame(s, s');
  }

  lemma MainTokens(cfg: Config, s: State)
    requires ControlInv(cfg, s) && TokensInv(s) && MainEnabled(cfg, s)
    ensures TokensInv(NextMain(cfg, s))
  {
    var s' := NextMain(cfg, s);
    assert forall m :: InFlight(s', m) <==> InFlight(s, m);
    hide InFlight, CountersOk;
    TasksSame(s, s');
  }

  /** Every step keeps each wait group's counter explained: one Done is coming, or none is and none more will. */
  lemma TokensKept(cfg: Config, s: State, step: Step)
    requires WellFormed(cfg) && ControlInv(cfg, s) && TokensInv(s) && Enabled(cfg, s, step)
    ensures TokensInv(Next(cfg, s, step))
  {
    hide ControlInv, TokensInv;
    match step
    case MainStep => MainTokens(cfg, s);
    case TaskStep(i, reply) => TaskTokens(cfg, s, i, reply);
    case Receive => ReceiveTokens(s);
    case Decide(items) => DecideTokens(cfg, s, items);
    case CheckSend(f) => SendTokens(s, f);
    case CheckDone(f) => DoneTokens(s, f);
  }
}
