/** Whole runs of the dispatcher pipeline: safety in every state, the account at the end, progress and termination. */
module DispatcherRun {
  import opened Counting
  import opened CachedSessions
  import opened BatchWriter
  import opened CacheWriter
  import opened Dispatcher
  import opened DispatcherControl
  import opened DispatcherStream

  predicate IsFailed(pc: Pc) {
    pc.Past() && pc.outcome.Failed?
  }

  predicate IsSent(pc: Pc) {
    pc.Past() && pc.outcome.Sent?
  }

  /** What a task has for sending goes under its own key, as a session. */
  ghost predicate ItemOk(cfg: Config, i: nat, item: SessionItem)
    requires i < |cfg.pairs|
  {
    item.key == KeyOf(cfg, i) && item.value.Cached?
  }

  /** A check reads the caches of its sample that it has not read yet. */
  ghost predicate CheckOk(cfg: Config, pc: Pc) {
    pc.Checking? ==> pc.todo <= pc.sample && forall c | c in pc.sample :: c < |cfg.caches|
  }

  ghost predicate ItemsOk(cfg: Config, s: State) {
    && |s.pcs| == |cfg.pairs|
    && (forall i: nat | i < |s.pcs| :: CheckOk(cfg, s.pcs[i]))
    && (forall i: nat | i < |s.pcs| && s.pcs[i].Sending? :: ItemOk(cfg, i, s.pcs[i].item))
    && (forall i: nat | i < |s.pcs| && IsSent(s.pcs[i]) :: ItemOk(cfg, i, s.pcs[i].outcome.item))
  }

  /** The senders are the tasks that sent, each once, with the item each sent. */
  ghost predicate SendersOk(s: State) {
    && |s.senders| == |s.out.sent|
    && (forall m, n | 0 <= m < n < |s.senders| :: s.senders[m] != s.senders[n])
    && (forall m | 0 <= m < |s.senders| ::
          && s.senders[m] < |s.pcs| && IsSent(s.pcs[s.senders[m]])
          && s.pcs[s.senders[m]].outcome.item == s.out.sent[m])
    && (forall i: nat | i < |s.pcs| && IsSent(s.pcs[i]) :: i in s.senders)
  }

  ghost predicate FailuresOk(s: State) {
    s.failed == |Where(s.pcs, IsFailed)| % UINT32
  }

  ghost predicate AccountInv(cfg: Config, s: State) {
    ItemsOk(cfg, s) && SendersOk(s) && FailuresOk(s)
  }

  ghost predicate Inv(cfg: Config, s: State)
    requires cfg.batchSize >= 1
  {
    ControlInv(cfg, s) && StreamOk(cfg, s) && AccountInv(cfg, s)
  }

  lemma InitInv(cfg: Config)
    requires WellFormed(cfg)
    ensures Inv(cfg, Init(cfg))
  {
    InitControl(cfg);
    StartedStream<Entry>(cfg.batchSize, |cfg.caches|);
    assert Where(Init(cfg).pcs, IsFailed) == {};
  }

  /** How one task step changes the account: one more failure, one more item sent, or neither. */
  lemma TaskAccounts(cfg: Config, s: State, i: nat, choice: Choice)
    requires TaskEnabled(cfg, s, i, choice) && ControlInv(cfg, s)
    ensures var s' := NextTask(cfg, s, i, choice);
      && TaskMoved(s, s', i)
      && (IsFailed(s'.pcs[i]) && !IsFailed(s.pcs[i]) ==> s'.failed == (s.failed + 1) % UINT32)
      && (IsFailed(s'.pcs[i]) <==> IsFailed(s.pcs[i]) || s.pcs[i].CountingFailure?)
      && (!s.pcs[i].CountingFailure? ==> s'.failed == s.failed)
      && (s.pcs[i].Sending? ==>
            IsSent(s'.pcs[i]) && s'.pcs[i].outcome.item == s.pcs[i].item
            && s'.senders == s.senders + [i] && s'.out.sent == s.out.sent + [s.pcs[i].item])
      && (!s.pcs[i].Sending? ==>
            s'.senders == s.senders && s'.out.sent == s.out.sent
            && (IsSent(s'.pcs[i]) <==> IsSent(s.pcs[i]))
            && (IsSent(s.pcs[i]) ==> s'.pcs[i].outcome == s.pcs[i].outcome))
      && (s'.pcs[i].Sending? ==> ItemOk(cfg, i, s'.pcs[i].item))
      && (CheckOk(cfg, s.pcs[i]) ==> CheckOk(cfg, s'.pcs[i]))
  {
    TaskMoves(cfg, s, i, choice);
    if s.pcs[i].Pending() {
      PendingKeepsOpen(cfg, s, i);
    }
    hide ControlInv, KeyOf, CacheNow, IsFresh;
  }

  lemma TaskFailures(cfg: Config, s: State, i: nat, choice: Choice)
    requires TaskEnabled(cfg, s, i, choice) && ControlInv(cfg, s) && FailuresOk(s)
    ensures FailuresOk(NextTask(cfg, s, i, choice))
  {
    TaskAccounts(cfg, s, i, choice);
    hide NextTask, ControlInv, FailuresOk, IsSent, ItemOk, CheckOk;
    FailuresMoved(s, NextTask(cfg, s, i, choice), i);
  }

  lemma FailuresMoved(s: State, s': State, i: nat)
    requires FailuresOk(s) && i < |s.pcs| == |s'.pcs| && s'.pcs == s.pcs[i := s'.pcs[i]]
    requires IsFailed(s.pcs[i]) ==> IsFailed(s'.pcs[i])
    requires s'.failed == if IsFailed(s'.pcs[i]) && !IsFailed(s.pcs[i]) then (s.failed + 1) % UINT32 else s.failed
    ensures FailuresOk(s')
  {
    WhereUpdate(s.pcs, i, s'.pcs[i], IsFailed);
    OneMoreModulo(|Where(s.pcs, IsFailed)|);
    hide Where, IsFailed;
  }

  lemma OneMoreModulo(n: nat)
    ensures (n % UINT32 + 1) % UINT32 == (n + 1) % UINT32
  {
  }

  lemma TaskItems(cfg: Config, s: State, i: nat, choice: Choice)
    requires TaskEnabled(cfg, s, i, choice) && ControlInv(cfg, s) && ItemsOk(cfg, s)
    ensures ItemsOk(cfg, NextTask(cfg, s, i, choice))
  {
    TaskAccounts(cfg, s, i, choice);
    hide NextTask, ControlInv, ItemOk, CheckOk;
  }

  lemma TaskSenders(cfg: Config, s: State, i: nat, choice: Choice)
    requires TaskEnabled(cfg, s, i, choice) && ControlInv(cfg, s) && SendersOk(s)
    ensures SendersOk(NextTask(cfg, s, i, choice))
  {
    TaskAccounts(cfg, s, i, choice);
    hide NextTask, ControlInv, ItemOk;
    var s' := NextTask(cfg, s, i, choice);
    if s.pcs[i].Sending? {
      SendersGrow(s, s', i);
    } else {
      SendersSame(s, s', i);
    }
  }

  lemma SendersGrow(s: State, s': State, i: nat)
    requires SendersOk(s) && i < |s.pcs| == |s'.pcs| && s'.pcs == s.pcs[i := s'.pcs[i]] && s.pcs[i].Sending?
    requires IsSent(s'.pcs[i]) && s'.senders == s.senders + [i] && s'.out.sent == s.out.sent + [s'.pcs[i].outcome.item]
    ensures SendersOk(s')
  {
    assert i !in s.senders;
    assert forall m | 0 <= m < |s.senders| :: s'.senders[m] == s.senders[m] && s'.out.sent[m] == s.out.sent[m];
    assert s'.senders[|s.senders|] == i;
  }

  lemma SendersSame(s: State, s': State, i: nat)
    requires SendersOk(s) && i < |s.pcs| == |s'.pcs| && s'.pcs == s.pcs[i := s'.pcs[i]]
    requires s'.senders == s.senders && s'.out.sent == s.out.sent
    requires IsSent(s'.pcs[i]) <==> IsSent(s.pcs[i])
    requires IsSent(s.pcs[i]) ==> s'.pcs[i].outcome == s.pcs[i].outcome
    ensures SendersOk(s')
  {
  }

  lemma SpawnAccount(cfg: Config, s: State, s': State)
    requires AccountInv(cfg, s) && s.next < |s.pcs| && s.pcs[s.next].Waiting?
    requires s'.pcs == s.pcs[s.next := Starting]
    requires s'.senders == s.senders && s'.out.sent == s.out.sent && s'.failed == s.failed
    ensures AccountInv(cfg, s')
  {
    WhereUpdate(s.pcs, s.next, Starting, IsFailed);
    SendersSame(s, s', s.next);
    hide SendersOk, ItemOk, Where;
  }

  lemma SameAccount(cfg: Config, s: State, s': State)
    requires AccountInv(cfg, s) && s'.pcs == s.pcs
    requires s'.senders == s.senders && s'.out.sent == s.out.sent && s'.failed == s.failed
    ensures AccountInv(cfg, s')
  {
    hide ItemOk;
  }

  lemma AccountKept(cfg: Config, s: State, step: Step)
    requires WellFormed(cfg) && ControlInv(cfg, s) && AccountInv(cfg, s) && Enabled(cfg, s, step)
    ensures AccountInv(cfg, Next(cfg, s, step))
  {
    hide ItemsOk, SendersOk, FailuresOk, NextTask, CountersOk;
    match step
    case TaskStep(i, choice) =>
      TaskItems(cfg, s, i, choice);
      TaskSenders(cfg, s, i, choice);
      TaskFailures(cfg, s, i, choice);
    case MainStep =>
      if s.main.Spawning? && s.next < |s.pcs| {
        SpawnAccount(cfg, s, NextMain(cfg, s));
      } else {
        SameAccount(cfg, s, NextMain(cfg, s));
      }
    case _ => SameAccount(cfg, s, Next(cfg, s, step));
  }

  lemma StepKept(cfg: Config, s: State, step: Step)
    requires WellFormed(cfg) && Inv(cfg, s) && Enabled(cfg, s, step)
    ensures Inv(cfg, Next(cfg, s, step))
  {
    hide ControlInv, StreamOk, AccountInv, Next, Enabled;
    ControlKept(cfg, s, step);
    StreamStepKept(cfg, s, step);
    AccountKept(cfg, s, step);
  }

  lemma {:induction false} TraceKept(cfg: Config, s: State, trace: seq<Step>)
    requires WellFormed(cfg) && Inv(cfg, s) && Possible(cfg, s, trace)
    ensures Inv(cfg, After(cfg, s, trace))
    decreases |trace|
  {
    if trace != [] {
      hide Inv, Next, Enabled;
      StepKept(cfg, s, trace[0]);
      TraceKept(cfg, Next(cfg, s, trace[0]), trace[1..]);
    }
  }

  /**
   Safety, in every state of every interleaving: nothing panics (no send on the closed channel, no wait group below
   zero), at most `concurrency` tasks run, the channel stays open while any task is pending, and written, pending and
   channel together are the items sent, in order.
   */
  lemma AlwaysSafe(cfg: Config, trace: seq<Step>)
    requires WellFormed(cfg) && Possible(cfg, Init(cfg), trace)
    ensures var s := After(cfg, Init(cfg), trace);
      && !s.panicked
      && |Where(s.pcs, IsHolding)| <= cfg.concurrency
      && (forall i: nat | i < |s.pcs| && s.pcs[i].Pending() :: !s.out.closed)
      && s.out.sent == s.out.flushed + Pending(s.out) + s.out.chan
  {
    InitInv(cfg);
    TraceKept(cfg, Init(cfg), trace);
    var s := After(cfg, Init(cfg), trace);
    hide After, Init, StreamOk, AccountInv;
    assert s.out.sent == s.out.flushed + Pending(s.out) + s.out.chan by { StreamSplit(cfg, s); }
    forall i: nat | i < |s.pcs| && s.pcs[i].Pending() ensures !s.out.closed {
      PendingKeepsOpen(cfg, s, i);
    }
  }

  lemma StreamSplit(cfg: Config, s: State)
    requires WellFormed(cfg) && StreamOk(cfg, s)
    ensures s.out.sent == s.out.flushed + Pending(s.out) + s.out.chan
  {
  }

  /**
   The account when DispatchSessions returns: every task is past its work, the batches are the chunks of what was sent,
   every cache holds its old entries overwritten by the sent items one by one, an item is there for each task that sent
   one and for no other, and the count of failures is that of the tasks with a real dispatch error, modulo 2^32.
   */
  lemma AccountAtReturn(cfg: Config, trace: seq<Step>)
    requires WellFormed(cfg) && Possible(cfg, Init(cfg), trace)
    requires After(cfg, Init(cfg), trace).main.Returned?
    ensures var s := After(cfg, Init(cfg), trace);
      && |s.pcs| == |cfg.pairs| && (forall i: nat | i < |s.pcs| :: s.pcs[i].Past())
      && s.out.flushes == Chunks(s.out.sent, cfg.batchSize)
      && |s.out.written| == |cfg.caches|
      && (forall c: nat | c < |cfg.caches| :: CacheNow(cfg, s, c) == ApplyAll(cfg.caches[c], s.out.sent))
      && SendersOk(s) && ItemsOk(cfg, s)
      && s.failed == |Where(s.pcs, IsFailed)| % UINT32
  {
    InitInv(cfg);
    TraceKept(cfg, Init(cfg), trace);
    hide After, Init;
    ReturnedMeans(cfg, After(cfg, Init(cfg), trace));
  }

  lemma ReturnedMeans(cfg: Config, s: State)
    requires WellFormed(cfg) && Inv(cfg, s) && s.main.Returned?
    ensures forall i: nat | i < |s.pcs| :: s.pcs[i].Past()
    ensures s.out.sent == s.out.flushed && s.out.flushes == Chunks(s.out.sent, cfg.batchSize)
    ensures |s.out.written| == |cfg.caches|
    ensures forall c: nat | c < |cfg.caches| :: CacheNow(cfg, s, c) == ApplyAll(cfg.caches[c], s.out.sent)
  {
    hide AccountInv, StreamInv;
    ExitedMeans(cfg.batchSize, |cfg.caches|, s.out);
    forall i: nat | i < |s.pcs| ensures s.pcs[i].Past() {
      NobodyPending(cfg, s, i);
    }
    hide ControlInv, Flat, Chunks;
  }
}
