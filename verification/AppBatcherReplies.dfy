/** In the lambda batcher the submissions are exactly the sessions that the tasks found, each submitted once. */
module AppBatcherReplies {
  import opened AppBatcher
  import opened AppBatcherTokens
  import opened AppBatcherBatches
  import opened AppBatcherRun

  type Replies = map<nat, Reply>

  /** What the lookups of the tasks have come to, after one more step. */
  function Heard(s: State, step: Step, replies: Replies): Replies {
    if step.TaskStep? && step.i < |s.pcs| && s.pcs[step.i].GettingSession? then replies[step.i := step.reply]
    else replies
  }

  function AllHeard(cfg: Config, s: State, trace: seq<Step>, replies: Replies): Replies
    requires Possible(cfg, s, trace)
    decreases |trace|
  {
    if trace == [] then replies else AllHeard(cfg, Next(cfg, s, trace[0]), trace[1..], Heard(s, trace[0], replies))
  }

  /** The submission at `m` is what task `i` found. */
  predicate Answers(submitted: seq<Submission>, replies: Replies, m: int, i: nat) {
    && 0 <= m < |submitted| && i in replies && replies[i].Session?
    && submitted[m] == Submission(i, replies[i].appKey, replies[i].invalid)
  }

  ghost predicate PcOk(submitted: seq<Submission>, replies: Replies, i: nat, pc: Pc) {
    match pc
    case Waiting => i !in replies
    case GettingSession => i !in replies
    case Submitting(sub) =>
      i in replies && replies[i].Session? && sub == Submission(i, replies[i].appKey, replies[i].invalid)
    case _ => i in replies && (replies[i].Session? ==> exists m :: Answers(submitted, replies, m, i))
  }

  ghost predicate RepliesInv(s: State, replies: Replies) {
    && (forall i: nat | i < |s.pcs| :: PcOk(s.submitted, replies, i, s.pcs[i]))
    && (forall m | 0 <= m < |s.submitted| :: Answers(s.submitted, replies, m, s.submitted[m].task))
  }

  /** Replies and submissions only grow, and only task `i` may hear something. */
  ghost predicate Grows(
    submitted: seq<Submission>, replies: Replies, submitted': seq<Submission>, replies': Replies, i: nat)
  {
    && (forall j: nat | j in replies :: j in replies' && replies'[j] == replies[j])
    && (forall j: nat | j in replies' && j != i :: j in replies)
    && |submitted| <= |submitted'| && (forall m | 0 <= m < |submitted| :: submitted'[m] == submitted[m])
  }

  lemma OthersPcOk(
    submitted: seq<Submission>, replies: Replies, submitted': seq<Submission>, replies': Replies, i: nat, j: nat,
    pc: Pc)
    requires Grows(submitted, replies, submitted', replies', i) && j != i && PcOk(submitted, replies, j, pc)
    ensures PcOk(submitted', replies', j, pc)
  {
    if m :| Answers(submitted, replies, m, j) {
      assert Answers(submitted', replies', m, j);
    }
  }

  /** What the mover's step does, in terms of what its lookups came to. */
  lemma MoverShape(cfg: Config, s: State, i: nat, reply: Reply)
    requires TaskEnabled(cfg, s, i) && s.wg > 0
    ensures var s', pc := NextTask(cfg, s, i, reply), s.pcs[i];
      && |s'.pcs| == |s.pcs| && (forall j | 0 <= j < |s.pcs| && j != i :: s'.pcs[j] == s.pcs[j])
      && s'.submitted == (if pc.Submitting? then s.submitted + [pc.sub] else s.submitted)
      && (pc.GettingSession? ==>
            s'.pcs[i] == if reply.NoSession? then Releasing else Submitting(Submission(i, reply.appKey, reply.invalid)))
      && (!pc.GettingSession? ==>
            s'.pcs[i].Blocked? || s'.pcs[i].Releasing? || s'.pcs[i].Signalling? || s'.pcs[i].Finished?)
  {
    TaskShape(cfg, s, i, reply);
    match s.pcs[i]
    case GettingSession =>
    case Submitting(sub) =>
    case _ =>
  }

  lemma MoverPcOk(s: State, s': State, i: nat, reply: Reply, replies: Replies)
    requires i < |s.pcs| == |s'.pcs| && PcOk(s.submitted, replies, i, s.pcs[i]) && !s.pcs[i].Waiting?
    requires s'.submitted == (if s.pcs[i].Submitting? then s.submitted + [s.pcs[i].sub] else s.submitted)
    requires s.pcs[i].GettingSession? ==>
      s'.pcs[i] == if reply.NoSession? then Releasing else Submitting(Submission(i, reply.appKey, reply.invalid))
    requires !s.pcs[i].GettingSession? ==>
      s'.pcs[i].Blocked? || s'.pcs[i].Releasing? || s'.pcs[i].Signalling? || s'.pcs[i].Finished?
    ensures var replies' := Heard(s, TaskStep(i, reply), replies);
      && PcOk(s'.submitted, replies', i, s'.pcs[i])
      && Grows(s.submitted, replies, s'.submitted, replies', i)
      && (s.pcs[i].Submitting? ==> Answers(s'.submitted, replies', |s.submitted|, i))
  {
    var replies' := Heard(s, TaskStep(i, reply), replies);
    if s.pcs[i].Submitting? {
      assert Answers(s'.submitted, replies', |s.submitted|, i);
    }
  }

  lemma TaskReplies(cfg: Config, s: State, i: nat, reply: Reply, replies: Replies)
    requires RepliesInv(s, replies) && TaskEnabled(cfg, s, i) && s.wg > 0
    ensures RepliesInv(NextTask(cfg, s, i, reply), Heard(s, TaskStep(i, reply), replies))
  {
    var s', replies' := NextTask(cfg, s, i, reply), Heard(s, TaskStep(i, reply), replies);
    assert PcOk(s.submitted, replies, i, s.pcs[i]);
    MoverShape(cfg, s, i, reply);
    hide NextTask, PcOk, Heard, Answers;
    MoverPcOk(s, s', i, reply, replies);
    forall j: nat | j < |s'.pcs| ensures PcOk(s'.submitted, replies', j, s'.pcs[j]) {
      if j != i {
        OthersPcOk(s.submitted, replies, s'.submitted, replies', i, j, s.pcs[j]);
      }
    }
    SubmittedStays(s.submitted, replies, s'.submitted, replies', i);
    if s.pcs[i].Submitting? {
      SubmitsOwn(s.submitted, replies, i, s.pcs[i]);
    }
  }

  lemma SubmitsOwn(submitted: seq<Submission>, replies: Replies, i: nat, pc: Pc)
    requires PcOk(submitted, replies, i, pc) && pc.Submitting?
    ensures pc.sub.task == i
  {
  }

  lemma SubmittedStays(
    submitted: seq<Submission>, replies: Replies, submitted': seq<Submission>, replies': Replies, i: nat)
    requires Grows(submitted, replies, submitted', replies', i)
    requires forall m | 0 <= m < |submitted| :: Answers(submitted, replies, m, submitted[m].task)
    ensures forall m | 0 <= m < |submitted| :: Answers(submitted', replies', m, submitted'[m].task)
  {
    forall m | 0 <= m < |submitted| ensures Answers(submitted', replies', m, submitted'[m].task) {
      assert Answers(submitted, replies, m, submitted[m].task);
    }
  }

  lemma OtherReplies(s: State, s': State, replies: Replies)
    requires RepliesInv(s, replies) && s'.submitted == s.submitted && |s'.pcs| == |s.pcs|
    requires forall i: nat | i < |s.pcs| :: s'.pcs[i] == s.pcs[i] || (s.pcs[i].Waiting? && s'.pcs[i].GettingSession?)
    ensures RepliesInv(s', replies)
  {
    forall i: nat | i < |s'.pcs| ensures PcOk(s'.submitted, replies, i, s'.pcs[i]) {
      assert PcOk(s.submitted, replies, i, s.pcs[i]);
    }
  }

  lemma MainShape(cfg: Config, s: State)
    requires ControlInv(cfg, s) && MainEnabled(cfg, s)
    ensures var s' := NextMain(cfg, s);
      && s'.submitted == s.submitted && |s'.pcs| == |s.pcs|
      && forall i: nat | i < |s.pcs| :: s'.pcs[i] == s.pcs[i] || (s.pcs[i].Waiting? && s'.pcs[i].GettingSession?)
  {
    hide CountersOk;
  }

  lemma StepReplies(cfg: Config, s: State, step: Step, replies: Replies)
    requires ControlInv(cfg, s) && RepliesInv(s, replies) && Enabled(cfg, s, step)
    ensures RepliesInv(Next(cfg, s, step), Heard(s, step, replies))
  {
    hide ControlInv, RepliesInv, NextTask, NextMain;
    match step
    case TaskStep(i, reply) =>
      PendingKeepsOpen(cfg, s, i);
      TaskReplies(cfg, s, i, reply, replies);
    case MainStep =>
      MainShape(cfg, s);
      OtherReplies(s, Next(cfg, s, step), replies);
    case _ =>
      QuietShape(cfg, s, step);
      hide Next, Enabled;
      OtherReplies(s, Next(cfg, s, step), replies);
  }

  lemma ReceiveShape(s: State)
    requires ReceiveEnabled(s)
    ensures NextReceive(s).submitted == s.submitted && NextReceive(s).pcs == s.pcs
  {
  }

  lemma DecideShape(cfg: Config, s: State, items: nat)
    requires DecideEnabled(s)
    ensures NextDecide(cfg, s, items).submitted == s.submitted && NextDecide(cfg, s, items).pcs == s.pcs
  {
    hide Flushes;
  }

  lemma CheckShape(s: State, f: nat)
    requires CheckEnabled(s, f)
    ensures NextCheckDone(s, f).submitted == s.submitted && NextCheckDone(s, f).pcs == s.pcs
    ensures s.checks[f].left > 0 ==> NextCheckSend(s, f).submitted == s.submitted && NextCheckSend(s, f).pcs == s.pcs
  {
  }

  lemma QuietShape(cfg: Config, s: State, step: Step)
    requires Enabled(cfg, s, step) && !step.TaskStep? && !step.MainStep?
    ensures Next(cfg, s, step).submitted == s.submitted && Next(cfg, s, step).pcs == s.pcs
  {
    hide NextReceive, NextDecide, NextCheckSend, NextCheckDone;
    match step
    case Receive => ReceiveShape(s);
    case Decide(items) => DecideShape(cfg, s, items);
    case CheckSend(f) => CheckShape(s, f);
    case CheckDone(f) => CheckShape(s, f);
    case _ =>
  }

  lemma {:induction false} TraceReplies(cfg: Config, s: State, trace: seq<Step>, replies: Replies)
    requires WellFormed(cfg) && Inv(cfg, s) && RepliesInv(s, replies) && Possible(cfg, s, trace)
    ensures RepliesInv(After(cfg, s, trace), AllHeard(cfg, s, trace, replies))
    decreases |trace|
  {
    if trace != [] {
      hide TokensInv, BatchInv, ControlInv, RepliesInv, Next, Enabled, Heard;
      StepReplies(cfg, s, trace[0], replies);
      StepKept(cfg, s, trace[0]);
      TraceReplies(cfg, Next(cfg, s, trace[0]), trace[1..], Heard(s, trace[0], replies));
    }
  }

  /** At the return every task has had its answer, and has submitted exactly the session it found, if any, once. */
  lemma SubmissionsAtReturn(cfg: Config, trace: seq<Step>)
    requires WellFormed(cfg) && Possible(cfg, Init(cfg), trace) && After(cfg, Init(cfg), trace).main.Closed?
    ensures var s, replies := After(cfg, Init(cfg), trace), AllHeard(cfg, Init(cfg), trace, map[]);
      && (forall i: nat | i < cfg.totalApps ::
            i in replies && (replies[i].Session? ==> exists m :: Answers(s.submitted, replies, m, i)))
      && (forall m | 0 <= m < |s.submitted| ::
            s.submitted[m].task < cfg.totalApps && Answers(s.submitted, replies, m, s.submitted[m].task))
      && (forall m, n | 0 <= m < n < |s.submitted| :: s.submitted[m].task != s.submitted[n].task)
  {
    var s, replies := After(cfg, Init(cfg), trace), AllHeard(cfg, Init(cfg), trace, map[]);
    ReachedInv(cfg, s);
    InitTokens(cfg);
    InitBatches(cfg);
    TraceReplies(cfg, Init(cfg), trace, map[]);
    ReturnedIsQuiet(cfg, s);
    hide Reached, Possible, After, AllHeard, Init;
    ReturnedAnswers(cfg, s, replies);
  }

  lemma ReturnedAnswers(cfg: Config, s: State, replies: Replies)
    requires Inv(cfg, s) && RepliesInv(s, replies) && forall i: nat | i < |s.pcs| :: s.pcs[i].Finished?
    ensures forall i: nat | i < cfg.totalApps ::
      i in replies && (replies[i].Session? ==> exists m :: Answers(s.submitted, replies, m, i))
    ensures forall m | 0 <= m < |s.submitted| ::
      s.submitted[m].task < cfg.totalApps && Answers(s.submitted, replies, m, s.submitted[m].task)
    ensures forall m, n | 0 <= m < n < |s.submitted| :: s.submitted[m].task != s.submitted[n].task
  {
    hide CountersOk, TaskOk, ChecksOrdered, BatchInv, Answers;
    forall i: nat | i < cfg.totalApps
      ensures i in replies && (replies[i].Session? ==> exists m :: Answers(s.submitted, replies, m, i))
    {
      assert PcOk(s.submitted, replies, i, s.pcs[i]);
    }
  }
}
