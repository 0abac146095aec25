/**
 fishermen lambda: the task loop of RunApplicationChecks, getAppToCheck as what each task calls, the monitor of the
 application channel, and the flushes it starts, as a small-step system. What its sends to the
 cache batch meet there is the matter of AppBatcherCache.
 */
module AppBatcher {

  datatype Config = Config(totalApps: nat, concurrency: nat, checksPerInvoke: nat)

  /** One applicationData on the channel: whose it is, the public key of its session, and its Invalid flag. */
  datatype Submission = Submission(task: nat, appKey: string, invalid: bool)

  datatype Pc =
    | Waiting
    | GettingSession
    | Submitting(sub: Submission)
    | Blocked
    | Releasing
    | Signalling
    | Finished
  {
    /** Between sem.Acquire and sem.Release. */
    predicate Holding() {
      GettingSession? || Submitting? || Blocked? || Releasing?
    }

    /** Between wg.Add and wg.Done. */
    predicate Pending() {
      !Waiting? && !Finished?
    }
  }

  datatype Main = Spawning | WaitingTasks | Closing | Closed

  datatype Monitor = Idle | Deciding

  /** A performChecks goroutine: the position of its submitter, its batch of positions, and the items it still sends. */
  datatype Check = Check(pos: nat, batch: map<string, nat>, running: bool, left: nat)

  /**
   Submissions are numbered in the order they are sent; the channel holds `submitted[processed..]`. `flushed`,
   `superseded` and `invalid` record, for the statements below only, what became of processed submissions.
   */
  datatype State = State(
    main: Main, next: nat, held: int, wg: int, pcs: seq<Pc>, waits: seq<int>,
    submitted: seq<Submission>, processed: nat, mon: Monitor, batch: map<string, nat>,
    checks: seq<Check>, cacheClosed: bool, panicked: bool,
    flushed: set<nat>, superseded: map<nat, nat>, invalid: set<nat>)

  /** What getSession and the blockchain lookup came to. */
  datatype Reply = NoSession | Session(appKey: string, invalid: bool)

  datatype Step =
    | MainStep
    | TaskStep(i: nat, reply: Reply)
    | Receive
    | Decide(items: nat)
    | CheckSend(f: nat)
    | CheckDone(f: nat)

  function Init(cfg: Config): State {
    State(Spawning, 0, 0, 0, seq(cfg.totalApps, _ => Waiting), seq(cfg.totalApps, _ => 0), [], 0, Idle, map[], [],
      false, false, {}, map[], {})
  }

  predicate MainEnabled(cfg: Config, s: State) {
    match s.main
    case Spawning => s.next <= |s.pcs| && (s.next < |s.pcs| ==> s.held < cfg.concurrency)
    case WaitingTasks => s.wg == 0
    case Closing => true
    case Closed => false
  }

  function NextMain(cfg: Config, s: State): State
    requires MainEnabled(cfg, s)
  {
    match s.main
    case Spawning =>
      if s.next < |s.pcs| then
        s.(held := s.held + 1, wg := s.wg + 1, pcs := s.pcs[s.next := GettingSession], next := s.next + 1)
      else s.(main := WaitingTasks)
    case WaitingTasks => s.(main := Closing)
    case Closing => if s.cacheClosed then s.(panicked := true) else s.(cacheClosed := true, main := Closed)
  }

  predicate TaskEnabled(cfg: Config, s: State, i: nat) {
    && i < |s.pcs| && i < |s.waits| && s.processed <= |s.submitted|
    && !s.pcs[i].Waiting? && !s.pcs[i].Finished?
    && (s.pcs[i].Submitting? ==> |s.submitted| - s.processed < cfg.checksPerInvoke)
    && (s.pcs[i].Blocked? ==> s.waits[i] == 0)
  }

  function At(s: State, i: nat, pc: Pc): State
    requires i < |s.pcs|
  {
    s.(pcs := s.pcs[i := pc])
  }

  function NextTask(cfg: Config, s: State, i: nat, reply: Reply): State
    requires TaskEnabled(cfg, s, i)
  {
    match s.pcs[i]
    case GettingSession =>
      if reply.NoSession? then At(s, i, Releasing)
      else At(s, i, Submitting(Submission(i, reply.appKey, reply.invalid))).(waits := s.waits[i := s.waits[i] + 1])
    case Submitting(sub) => At(s, i, Blocked).(submitted := s.submitted + [sub])
    case Blocked => At(s, i, Releasing)
    case Releasing => At(s, i, Signalling).(held := s.held - 1)
    case Signalling => if s.wg <= 0 then s.(panicked := true) else At(s, i, Finished).(wg := s.wg - 1)
  }

  predicate ReceiveEnabled(s: State) {
    s.mon.Idle? && s.processed < |s.submitted|
  }

  /** monitorAppBatch takes one submission into the batch; one with the same key there is superseded. */
  function NextReceive(s: State): State
    requires ReceiveEnabled(s)
  {
    var pos, sub := s.processed, s.submitted[s.processed];
    var s' := s.(processed := s.processed + 1, mon := Deciding);
    if sub.invalid then s'.(invalid := s.invalid + {pos})
    else s'.(batch := s.batch[sub.appKey := pos],
             superseded := if sub.appKey in s.batch then s.superseded[s.batch[sub.appKey] := pos] else s.superseded)
  }

  /** Done on the wait group of the submitter at `pos`; below zero it panics. */
  function Release(s: State, pos: nat): State
    requires pos < |s.submitted| && s.submitted[pos].task < |s.waits|
  {
    var i := s.submitted[pos].task;
    if s.waits[i] <= 0 then s.(panicked := true) else s.(waits := s.waits[i := s.waits[i] - 1])
  }

  predicate DecideEnabled(s: State) {
    s.mon.Deciding? && 0 < s.processed <= |s.submitted| && s.submitted[s.processed - 1].task < |s.waits|
  }

  predicate Flushes(cfg: Config, s: State) {
    s.processed >= cfg.totalApps || |s.batch| >= cfg.checksPerInvoke
  }

  function NextDecide(cfg: Config, s: State, items: nat): State
    requires DecideEnabled(s)
  {
    var pos := s.processed - 1;
    if !Flushes(cfg, s) then Release(s.(mon := Idle), pos)
    else s.(mon := Idle, checks := s.checks + [Check(pos, s.batch, true, items)], flushed := s.flushed + s.batch.Values,
            batch := map[])
  }

  predicate CheckEnabled(s: State, f: nat) {
    && f < |s.checks| && s.checks[f].running
    && s.checks[f].pos < |s.submitted| && s.submitted[s.checks[f].pos].task < |s.waits|
  }

  function NextCheckSend(s: State, f: nat): State
    requires CheckEnabled(s, f) && s.checks[f].left > 0
  {
    if s.cacheClosed then s.(panicked := true)
    else s.(checks := s.checks[f := s.checks[f].(left := s.checks[f].left - 1)])
  }

  function NextCheckDone(s: State, f: nat): State
    requires CheckEnabled(s, f)
  {
    Release(s.(checks := s.checks[f := s.checks[f].(running := false)]), s.checks[f].pos)
  }

  predicate Enabled(cfg: Config, s: State, step: Step) {
    match step
    case MainStep => MainEnabled(cfg, s)
    case TaskStep(i, _) => TaskEnabled(cfg, s, i)
    case Receive => ReceiveEnabled(s)
    case Decide(_) => DecideEnabled(s)
    case CheckSend(f) => CheckEnabled(s, f) && s.checks[f].left > 0
    case CheckDone(f) => CheckEnabled(s, f) && s.checks[f].left == 0
  }

  function Next(cfg: Config, s: State, step: Step): State
    requires Enabled(cfg, s, step)
  {
    match step
    case MainStep => NextMain(cfg, s)
    case TaskStep(i, reply) => NextTask(cfg, s, i, reply)
    case Receive => NextReceive(s)
    case Decide(items) => NextDecide(cfg, s, items)
    case CheckSend(f) => NextCheckSend(s, f)
    case CheckDone(f) => NextCheckDone(s, f)
  }

  predicate Possible(cfg: Config, s: State, trace: seq<Step>)
    decreases |trace|
  {
    trace == [] || (Enabled(cfg, s, trace[0]) && Possible(cfg, Next(cfg, s, trace[0]), trace[1..]))
  }

  function After(cfg: Config, s: State, trace: seq<Step>): State
    requires Possible(cfg, s, trace)
    decreases |trace|
  {
    if trace == [] then s else After(cfg, Next(cfg, s, trace[0]), trace[1..])
  }
}
