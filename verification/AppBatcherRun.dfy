/** What holds in every state of every run of the lambda batcher, and what is left when the run has returned. */
module AppBatcherRun {
  import opened Arithmetic
  import opened Counting
  import opened AppBatcher
  import opened AppBatcherTokens
  import opened AppBatcherBatches

  ghost predicate Inv(cfg: Config, s: State) {
    ControlInv(cfg, s) && TokensInv(s) && BatchInv(cfg, s)
  }

  function SubmitterOf(s: State, m: nat): nat {
    if m < |s.submitted| then s.submitted[m].task else 0
  }

  /** Every task submits at most once, so there are at most TotalApps submissions. */
  lemma SubmittedBound(s: State)
    requires SubmittersOk(s)
    ensures |s.submitted| <= |s.pcs|
  {
    var all := Where(s.submitted, Any);
    forall m, n | m in all && n in all && m != n ensures SubmitterOf(s, m) != SubmitterOf(s, n) {
      if m < n {
        assert s.submitted[m].task != s.submitted[n].task;
      } else {
        assert s.submitted[n].task != s.submitted[m].task;
      }
    }
    forall m | m in all ensures SubmitterOf(s, m) in Where(s.pcs, Any) {
    }
    ImageSize(all, Where(s.pcs, Any), (m: nat) => SubmitterOf(s, m));
    WhereAny(s.submitted);
    WhereAny(s.pcs);
  }

  lemma StepKept(cfg: Config, s: State, step: Step)
    requires WellFormed(cfg) && Inv(cfg, s) && Enabled(cfg, s, step)
    ensures Inv(cfg, Next(cfg, s, step))
  {
    SubmittedBound(s);
    hide SubmittersOk, ChecksOrdered, TaskOk, CountersOk, BatchInv, Next, Enabled;
    ControlKept(cfg, s, step);
    TokensKept(cfg, s, step);
    BatchesKept(cfg, s, step);
  }

  lemma {:induction false} TraceKept(cfg: Config, s: State, trace: seq<Step>)
    requires WellFormed(cfg) && Inv(cfg, s) && Possible(cfg, s, trace)
    ensures Inv(cfg, After(cfg, s, trace))
    decreases |trace|
  {
    if trace != [] {
      hide Inv, Next, Enabled;
      StepKept(cfg, s, trace[0]);
      TraceKept(cfg, Next(cfg, s, trace[0]), trace[1..]);
    }
  }

  /** The state after any run from the start. */
  ghost predicate Reached(cfg: Config, s: State) {
    exists trace :: Possible(cfg, Init(cfg), trace) && s == After(cfg, Init(cfg), trace)
  }

  lemma {:induction false} OneStepMore(cfg: Config, s: State, trace: seq<Step>, step: Step)
    requires Possible(cfg, s, trace) && Enabled(cfg, After(cfg, s, trace), step)
    ensures Possible(cfg, s, trace + [step])
    ensures After(cfg, s, trace + [step]) == Next(cfg, After(cfg, s, trace), step)
    decreases |trace|
  {
    hide Next, Enabled;
    if trace == [] {
      assert (trace + [step])[1..] == [];
    } else {
      assert (trace + [step])[1..] == trace[1..] + [step];
      OneStepMore(cfg, Next(cfg, s, trace[0]), trace[1..], step);
    }
  }

  lemma ReachStart(cfg: Config)
    ensures Reached(cfg, Init(cfg))
  {
    assert Possible(cfg, Init(cfg), []) && After(cfg, Init(cfg), []) == Init(cfg);
  }

  lemma ReachNext(cfg: Config, s: State, step: Step)
    requires Reached(cfg, s) && Enabled(cfg, s, step)
    ensures Reached(cfg, Next(cfg, s, step))
  {
    var trace :| Possible(cfg, Init(cfg), trace) && s == After(cfg, Init(cfg), trace);
    OneStepMore(cfg, Init(cfg), trace, step);
    hide Next, Enabled;
  }

  lemma ReachedInv(cfg: Config, s: State)
    requires WellFormed(cfg) && Reached(cfg, s)
    ensures Inv(cfg, s)
  {
    var trace :| Possible(cfg, Init(cfg), trace) && s == After(cfg, Init(cfg), trace);
    InitTokens(cfg);
    InitBatches(cfg);
    TraceKept(cfg, Init(cfg), trace);
  }

  /** A submission's wait group stands at one while its Done is to come, and at zero ever after. */
  lemma WaitIsOwed(s: State, m: nat)
    requires TokensInv(s) && m < |s.submitted|
    ensures s.submitted[m].task < |s.waits| && s.waits[s.submitted[m].task] == Owed(s, m)
  {
    var i := s.submitted[m].task;
    assert TaskOk(s, i);
    hide InFlight, ChecksOrdered;
    if s.pcs[i].Blocked? {
      var n :| 0 <= n < |s.submitted| && s.submitted[n].task == i && s.waits[i] == Owed(s, n);
      assert n == m;
    }
  }

  lemma TaskRoom(cfg: Config, s: State, i: nat, reply: Reply)
    requires TaskEnabled(cfg, s, i)
    ensures var s' := NextTask(cfg, s, i, reply);
      && s'.processed == s.processed <= |s'.submitted| && |s.submitted| <= |s'.submitted|
      && (|s'.submitted| == |s.submitted| || |s'.submitted| <= s.processed + cfg.checksPerInvoke)
  {
  }

  lemma DecideRoom(cfg: Config, s: State, items: nat)
    requires DecideEnabled(s)
    ensures var s' := NextDecide(cfg, s, items); s'.processed == s.processed && s'.submitted == s.submitted
  {
    hide Flushes;
  }

  lemma CheckRoom(s: State, f: nat)
    requires CheckEnabled(s, f)
    ensures NextCheckDone(s, f).processed == s.processed && NextCheckDone(s, f).submitted == s.submitted
    ensures s.checks[f].left > 0 ==>
      NextCheckSend(s, f).processed == s.processed && NextCheckSend(s, f).submitted == s.submitted
  {
  }

  lemma StepRoom(cfg: Config, s: State, step: Step)
    requires Enabled(cfg, s, step) && s.processed <= |s.submitted| <= s.processed + cfg.checksPerInvoke
    ensures var s' := Next(cfg, s, step); s'.processed <= |s'.submitted| <= s'.processed + cfg.checksPerInvoke
  {
    hide TaskEnabled, NextTask, NextDecide, NextCheckSend, NextCheckDone, CheckEnabled;
    match step
    case TaskStep(i, reply) => TaskRoom(cfg, s, i, reply);
    case Decide(items) => DecideRoom(cfg, s, items);
    case CheckSend(f) => CheckRoom(s, f);
    case CheckDone(f) => CheckRoom(s, f);
    case _ =>
  }

  lemma {:induction false} TraceRoom(cfg: Config, s: State, trace: seq<Step>)
    requires Possible(cfg, s, trace) && s.processed <= |s.submitted| <= s.processed + cfg.checksPerInvoke
    ensures var s' := After(cfg, s, trace); s'.processed <= |s'.submitted| <= s'.processed + cfg.checksPerInvoke
    decreases |trace|
  {
    if trace != [] {
      StepRoom(cfg, s, trace[0]);
      hide Next, Enabled;
      TraceRoom(cfg, Next(cfg, s, trace[0]), trace[1..]);
    }
  }

  /** The application channel has room for one batch and never holds more. */
  lemma ReachedRoom(cfg: Config, s: State)
    requires Reached(cfg, s)
    ensures s.processed <= |s.submitted| <= s.processed + cfg.checksPerInvoke
  {
    var trace :| Possible(cfg, Init(cfg), trace) && s == After(cfg, Init(cfg), trace);
    TraceRoom(cfg, Init(cfg), trace);
  }

  predicate IsRunning(check: Check) {
    check.running
  }

  /** The task a check answers to. */
  function OwnerOf(s: State, f: nat): nat {
    if f < |s.checks| then SubmitterOf(s, s.checks[f].pos) else 0
  }

  lemma OwnersDiffer(s: State, f: nat, g: nat)
    requires TokensInv(s) && f < |s.checks| && g < |s.checks| && f != g
    ensures OwnerOf(s, f) != OwnerOf(s, g)
  {
    hide TaskOk;
    if f < g {
      assert s.checks[f].pos < s.checks[g].pos;
      assert s.submitted[s.checks[f].pos].task != s.submitted[s.checks[g].pos].task;
    } else {
      assert s.checks[g].pos < s.checks[f].pos;
      assert s.submitted[s.checks[g].pos].task != s.submitted[s.checks[f].pos].task;
    }
  }

  lemma OwnerHolds(cfg: Config, s: State, f: nat)
    requires ControlInv(cfg, s) && TokensInv(s) && f < |s.checks| && s.checks[f].running
    ensures OwnerOf(s, f) < |s.pcs| && s.pcs[OwnerOf(s, f)].Blocked? && !s.cacheClosed
  {
    CheckKeepsOpen(cfg, s, f);
    hide ControlInv, TaskOk, ChecksOrdered;
  }

  /** Running checks are at most as many as the semaphore lets tasks in. */
  lemma RunningBound(cfg: Config, s: State)
    requires ControlInv(cfg, s) && TokensInv(s)
    ensures |Where(s.checks, IsRunning)| <= s.held <= cfg.concurrency
  {
    var running := Where(s.checks, IsRunning);
    forall f | f in running ensures OwnerOf(s, f) in Where(s.pcs, IsHolding) {
      OwnerHolds(cfg, s, f);
    }
    forall f, g | f in running && g in running && f != g ensures OwnerOf(s, f) != OwnerOf(s, g) {
      OwnersDiffer(s, f, g);
    }
    ImageSize(running, Where(s.pcs, IsHolding), (f: nat) => OwnerOf(s, f));
  }

  /**
   In every state of every run: nothing has panicked (no send on the closed cache batch, no Done too many); every
   running check belongs to a task of its own that is still blocked, so the cache batch is open and at most
   `concurrency` checks run; every submission's wait group has had its Done exactly when it is no longer in flight; and
   the application channel holds at most one batch.
   */
  lemma AlwaysSafe(cfg: Config, s: State)
    requires WellFormed(cfg) && Reached(cfg, s)
    ensures !s.panicked
    ensures forall f: nat | f < |s.checks| && s.checks[f].running ::
      OwnerOf(s, f) < |s.pcs| && s.pcs[OwnerOf(s, f)].Blocked? && !s.cacheClosed
    ensures forall f, g | 0 <= f < g < |s.checks| :: OwnerOf(s, f) != OwnerOf(s, g)
    ensures |Where(s.checks, IsRunning)| <= cfg.concurrency
    ensures forall m: nat | m < |s.submitted| ::
      SubmitterOf(s, m) < |s.waits| && s.waits[SubmitterOf(s, m)] == Owed(s, m)
    ensures s.processed <= |s.submitted| <= s.processed + cfg.checksPerInvoke
  {
    ReachedInv(cfg, s);
    ReachedRoom(cfg, s);
    NotPanicked(cfg, s);
    RunningBound(cfg, s);
    hide ControlInv, TokensInv, Reached, Owed;
    forall f: nat | f < |s.checks| && s.checks[f].running
      ensures OwnerOf(s, f) < |s.pcs| && s.pcs[OwnerOf(s, f)].Blocked? && !s.cacheClosed
    {
      OwnerHolds(cfg, s, f);
    }
    forall f, g | 0 <= f < g < |s.checks| ensures OwnerOf(s, f) != OwnerOf(s, g) {
      OwnersDiffer(s, f, g);
    }
    forall m: nat | m < |s.submitted|
      ensures SubmitterOf(s, m) < |s.waits| && s.waits[SubmitterOf(s, m)] == Owed(s, m)
    {
      WaitIsOwed(s, m);
    }
  }

  lemma QuietStep(cfg: Config, s: State, step: Step)
    requires Enabled(cfg, s, step) && (step.MainStep? || step.TaskStep? || step.Receive?)
    ensures Next(cfg, s, step).checks == s.checks && Decided(Next(cfg, s, step)) == Decided(s)
  {
    match step
    case MainStep =>
    case TaskStep(i, reply) =>
      TaskShape(cfg, s, i, reply);
      hide NextTask;
    case Receive =>
    case _ =>
  }

  /** Positions that have been given up stay given up: a submission gets its Done once. */
  lemma DoneOnce(cfg: Config, s: State, step: Step, m: nat)
    requires WellFormed(cfg) && Inv(cfg, s) && Enabled(cfg, s, step)
    requires m < |s.submitted| && !InFlight(s, m)
    ensures !InFlight(Next(cfg, s, step), m)
  {
    hide ControlInv, TokensInv, BatchInv;
    match step
    case Decide(items) => DecideGivesUp(cfg, s, items, m);
    case CheckDone(f) => DoneFlights(s, f, NextCheckDone(s, f), m);
    case CheckSend(f) =>
      assert forall g | 0 <= g < |s.checks| ::
          NextCheckSend(s, f).checks[g] == s.checks[g].(left := NextCheckSend(s, f).checks[g].left);
    case _ =>
      QuietStep(cfg, s, step);
      hide Next, Enabled;
  }

  lemma DecideGivesUp(cfg: Config, s: State, items: nat, m: nat)
    requires TokensInv(s) && DecideEnabled(s) && !InFlight(s, m)
    ensures !InFlight(NextDecide(cfg, s, items), m)
  {
    if Flushes(cfg, s) {
      FlushFlights(cfg, s, items, m);
    } else {
      NoFlushFlights(cfg, s, NextDecide(cfg, s, items), m);
    }
  }

  /** The positions whose fate is settled. */
  function Settled(s: State): set<nat> {
    s.flushed + s.batch.Values + s.superseded.Keys + s.invalid
  }

  lemma UnionSize<T>(a: set<T>, b: set<T>, c: set<T>)
    requires a !! b !! c
    ensures |a + b + c| == |a| + |b| + |c|
  {
    assert (a + b) !! c;
  }

  lemma SettledSize(s: State)
    requires BatchOk(s) && FatesOk(s) && CountsOk(s)
    ensures |Settled(s)| == s.processed
  {
    BatchValues(s);
    SettledApart(s);
    hide BatchOk, FatesOk;
    UnionSize(s.flushed + s.batch.Values, s.superseded.Keys, s.invalid);
    assert |s.superseded.Keys| == |s.superseded|;
  }

  lemma SettledBelow(s: State)
    requires BatchOk(s) && FatesOk(s)
    ensures forall m | m in Settled(s) :: m < s.processed
  {
    forall m | m in s.batch.Values ensures m < s.processed {
      var k :| k in s.batch && s.batch[k] == m;
    }
  }

  /**
   Conservation: what the monitor has processed is flushed, pending in the batch, superseded by a later valid
   submission with the same application key, or invalid; exactly one of these for each. What is flushed is what the
   performChecks calls were given, each submission to one of them.
   */
  lemma EverySubmissionAccounted(cfg: Config, s: State)
    requires WellFormed(cfg) && Reached(cfg, s)
    ensures s.processed == |s.flushed| + |s.batch| + |s.superseded| + |s.invalid|
    ensures forall m: nat :: m < s.processed <==> m in Settled(s)
    ensures s.flushed !! s.batch.Values !! s.superseded.Keys !! s.invalid
    ensures forall m | m in s.superseded :: SupersededBySame(s, m)
    ensures forall m | m in s.invalid :: m < |s.submitted| && s.submitted[m].invalid
    ensures forall m :: m in s.flushed <==> Checked(s, m)
    ensures forall f, g | 0 <= f < g < |s.checks| :: s.checks[f].batch.Values !! s.checks[g].batch.Values
  {
    ReachedInv(cfg, s);
    SettledSize(s);
    SettledBelow(s);
    SettledApart(s);
    SettledAll(s);
    hide Reached, ControlInv, TokensInv, Settled;
  }

  predicate SupersededBySame(s: State, m: nat)
    requires m in s.superseded
  {
    && m < s.superseded[m] < s.processed <= |s.submitted|
    && !s.submitted[m].invalid && !s.submitted[s.superseded[m]].invalid
    && s.submitted[s.superseded[m]].appKey == s.submitted[m].appKey
  }

  lemma SettledAll(s: State)
    requires |Settled(s)| == s.processed
    requires forall m | m in Settled(s) :: m < s.processed
    ensures forall m: nat :: m < s.processed ==> m in Settled(s)
  {
    var all := Settled(s);
    hide Settled;
    forall m: nat | m < s.processed ensures m in all {
      if m !in all {
        BelowSize(all + {m}, s.processed);
      }
    }
  }

  lemma SettledApart(s: State)
    requires BatchOk(s) && FatesOk(s)
    ensures s.flushed !! s.batch.Values !! s.superseded.Keys !! s.invalid
  {
    forall m | m in s.batch.Values ensures m < s.processed && !s.submitted[m].invalid {
      var k :| k in s.batch && s.batch[k] == m;
    }
  }

  lemma LaterChecks(s: State, f: nat)
    requires ChecksOrdered(s) && f < |s.checks|
    ensures s.checks[f].pos < Decided(s)
    ensures f + 1 < |s.checks| ==> s.checks[f].pos + 1 < Decided(s)
  {
    if f + 1 < |s.checks| {
      assert s.checks[f].pos < s.checks[f + 1].pos;
    }
  }

  /** In every state, flushes are full but for the last, and the residue is below a full batch. */
  lemma FlushesAreFull(cfg: Config, s: State)
    requires WellFormed(cfg) && Reached(cfg, s)
    ensures forall f: nat | f < |s.checks| ::
      |s.checks[f].batch| == cfg.checksPerInvoke
      || (s.checks[f].pos + 1 == cfg.totalApps && f + 1 == |s.checks| && |s.checks[f].batch| <= cfg.checksPerInvoke)
    ensures |s.batch| <= cfg.checksPerInvoke && (s.mon.Idle? ==> |s.batch| < cfg.checksPerInvoke)
  {
    ReachedInv(cfg, s);
    SubmittedBound(s);
    hide Reached, TaskOk, FullOk, BatchOk, FatesOk;
    forall f: nat | f < |s.checks| && |s.checks[f].batch| != cfg.checksPerInvoke
      ensures s.checks[f].pos + 1 == cfg.totalApps && f + 1 == |s.checks|
    {
      assert FullOrLast(cfg, s.checks[f]);
      LaterChecks(s, f);
    }
  }

  lemma NoneInFlight(s: State)
    requires 0 <= Decided(s) && forall m: nat | m < |s.submitted| :: !InFlight(s, m)
    ensures Decided(s) >= |s.submitted|
  {
    if |s.submitted| > 0 {
      assert !InFlight(s, |s.submitted| - 1);
    }
  }

  /** Once RunApplicationChecks has closed the cache batch, every task has finished and nothing is in flight. */
  lemma ReturnedIsQuiet(cfg: Config, s: State)
    requires WellFormed(cfg) && Inv(cfg, s) && s.main.Closed?
    ensures forall i: nat | i < |s.pcs| :: s.pcs[i].Finished?
    ensures forall m: nat | m < |s.submitted| :: !InFlight(s, m)
    ensures s.mon.Idle? && s.processed == |s.submitted|
    ensures Where(s.checks, IsRunning) == {}
  {
    forall i: nat | i < |s.pcs| ensures s.pcs[i].Finished? {
      NobodyPending(cfg, s, i);
    }
    forall m: nat | m < |s.submitted| ensures !InFlight(s, m) {
      if InFlight(s, m) {
        InFlightBlocks(s, m);
      }
    }
    NoneInFlight(s);
    forall f: nat | f < |s.checks| ensures !s.checks[f].running {
      if s.checks[f].running {
        OwnerHolds(cfg, s, f);
      }
    }
  }

  lemma ResidueIsRemainder(cfg: Config, s: State)
    requires WellFormed(cfg) && CountsOk(s) && ResidueOk(cfg, s) && FullOk(cfg, s)
    requires s.mon.Idle? && s.processed == |s.submitted| <= cfg.totalApps
    ensures |s.batch| < cfg.checksPerInvoke
    ensures |s.submitted| == cfg.totalApps ==> s.batch == map[]
    ensures |s.submitted| < cfg.totalApps ==>
      |s.superseded| + |s.invalid| <= |s.submitted|
      && |s.batch| == (|s.submitted| - |s.superseded| - |s.invalid|) % cfg.checksPerInvoke
  {
    if |s.submitted| < cfg.totalApps {
      QuotientUnique(|s.flushed| + |s.batch|, cfg.checksPerInvoke, |s.checks|, |s.batch|);
    }
  }

  lemma PairsOf(cfg: Config, s: State)
    requires ControlInv(cfg, s)
    ensures |s.pcs| == cfg.totalApps
  {
  }

  /**
   What the batch still holds when the run has returned, never to be checked: nothing if every (application, chain)
   pair submitted; otherwise the remainder of what was neither superseded nor invalid.
   */
  lemma ResidueAtReturn(cfg: Config, s: State)
    requires WellFormed(cfg) && Reached(cfg, s) && s.main.Closed?
    ensures |s.batch| < cfg.checksPerInvoke
    ensures |s.submitted| <= cfg.totalApps && s.processed == |s.submitted|
    ensures |s.submitted| == cfg.totalApps ==> s.batch == map[]
    ensures |s.submitted| < cfg.totalApps ==>
      |s.superseded| + |s.invalid| <= |s.submitted|
      && |s.batch| == (|s.submitted| - |s.superseded| - |s.invalid|) % cfg.checksPerInvoke
  {
    ReachedInv(cfg, s);
    hide Reached;
    ReturnedIsQuiet(cfg, s);
    PairsOf(cfg, s);
    SubmittedBound(s);
    hide ControlInv, TokensInv, SubmittersOk, InFlight;
    hide BatchOk, FatesOk, CountsOk, SizesOk, ResidueOk, FullOk, ChecksOk;
    ResidueIsRemainder(cfg, s);
  }
}
