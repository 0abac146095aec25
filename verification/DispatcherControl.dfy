/** The control side of the dispatcher pipeline: semaphore, wait groups, and closing the channel. */
module DispatcherControl {
  import opened Counting
  import opened CacheWriter
  import opened Dispatcher

  predicate WellFormed(cfg: Config) {
    cfg.concurrency >= 1 && cfg.batchSize >= 1
  }

  predicate IsHolding(pc: Pc) {
    pc.Holding()
  }

  predicate IsPending(pc: Pc) {
    pc.Pending()
  }

  ghost predicate CountersOk(cfg: Config, s: State) {
    && s.held == |Where(s.pcs, IsHolding)| && s.held <= cfg.concurrency
    && s.wg == |Where(s.pcs, IsPending)|
  }

  ghost predicate ControlInv(cfg: Config, s: State) {
    && |s.pcs| == |cfg.pairs| && s.next <= |s.pcs|
    && (forall i | 0 <= i < |s.pcs| :: s.pcs[i].Waiting? <==> i >= s.next)
    && CountersOk(cfg, s)
    && (s.main.Spawning? || s.next == |s.pcs|)
    && (s.main.Closing? || s.main.WaitingMonitor? || s.main.Returned? ==> s.wg == 0)
    && (s.out.closed <==> s.main.WaitingMonitor? || s.main.Returned?)
    && (s.main.Returned? ==> s.out.mon.Exited?)
    && !s.panicked
  }

  lemma InitControl(cfg: Config)
    requires WellFormed(cfg)
    ensures ControlInv(cfg, Init(cfg))
  {
    assert Where(Init(cfg).pcs, IsHolding) == {};
    assert Where(Init(cfg).pcs, IsPending) == {};
  }

  /** A task that has not signalled keeps the wait group up, and with it the channel open. */
  lemma PendingKeepsOpen(cfg: Config, s: State, i: nat)
    requires ControlInv(cfg, s) && i < |s.pcs| && s.pcs[i].Pending()
    ensures s.wg > 0 && !s.out.closed && i < s.next
  {
    assert i in Where(s.pcs, IsPending);
  }

  /** Nobody is pending when the wait group is at zero. */
  lemma NobodyPending(cfg: Config, s: State, i: nat)
    requires CountersOk(cfg, s) && s.wg == 0 && i < |s.pcs|
    ensures !s.pcs[i].Pending()
  {
    assert Where(s.pcs, IsPending) == {};
    assert i !in Where(s.pcs, IsPending);
  }

  /** What a task step may change, when it neither sends on a closed channel nor drives the wait group below zero. */
  ghost predicate TaskMoved(s: State, s': State, i: nat) {
    && i < |s.pcs| == |s'.pcs| && s'.pcs == s.pcs[i := s'.pcs[i]]
    && !s.pcs[i].Waiting? && !s'.pcs[i].Waiting?
    && s'.main == s.main && s'.next == s.next && s'.out.closed == s.out.closed && s'.panicked == s.panicked
    && (s'.out == s.out || (s.pcs[i].Sending? && s'.out == Send(s.out, s.pcs[i].item)))
    && s'.held == s.held - (if s.pcs[i].Holding() then 1 else 0) + (if s'.pcs[i].Holding() then 1 else 0)
    && s'.held <= s.held && s'.wg <= s.wg
    && s'.wg == s.wg - (if s.pcs[i].Pending() then 1 else 0) + (if s'.pcs[i].Pending() then 1 else 0)
  }

  lemma TaskMoves(cfg: Config, s: State, i: nat, choice: Choice)
    requires ControlInv(cfg, s) && TaskEnabled(cfg, s, i, choice)
    ensures TaskMoved(s, NextTask(cfg, s, i, choice), i)
  {
    if s.pcs[i].Pending() {
      PendingKeepsOpen(cfg, s, i);
    }
    hide ControlInv;
  }

  lemma CountersMoved(cfg: Config, s: State, s': State, i: nat)
    requires CountersOk(cfg, s) && TaskMoved(s, s', i)
    ensures CountersOk(cfg, s')
  {
    WhereUpdate(s.pcs, i, s'.pcs[i], IsHolding);
    WhereUpdate(s.pcs, i, s'.pcs[i], IsPending);
    hide Where;
  }

  lemma TaskControl(cfg: Config, s: State, s': State, i: nat)
    requires ControlInv(cfg, s) && TaskMoved(s, s', i)
    ensures ControlInv(cfg, s')
  {
    CountersMoved(cfg, s, s', i);
    if s.wg == 0 {
      NobodyPending(cfg, s, i);
      NeverBelowZero(cfg, s');
    }
    hide CountersOk;
  }

  lemma NeverBelowZero(cfg: Config, s: State)
    requires CountersOk(cfg, s)
    ensures s.wg >= 0
  {
  }

  lemma SpawnCounters(cfg: Config, s: State)
    requires CountersOk(cfg, s) && s.next < |s.pcs| && s.pcs[s.next].Waiting? && s.held < cfg.concurrency
    ensures CountersOk(cfg,
      s.(held := s.held + 1, wg := s.wg + 1, pcs := s.pcs[s.next := Starting], next := s.next + 1))
  {
    WhereUpdate(s.pcs, s.next, Starting, IsHolding);
    WhereUpdate(s.pcs, s.next, Starting, IsPending);
    hide Where;
  }

  lemma SameCounters(cfg: Config, s: State, s': State)
    requires CountersOk(cfg, s) && s'.pcs == s.pcs && s'.held == s.held && s'.wg == s.wg
    ensures CountersOk(cfg, s')
  {
  }

  lemma MainControl(cfg: Config, s: State)
    requires WellFormed(cfg) && ControlInv(cfg, s) && MainEnabled(cfg, s)
    ensures ControlInv(cfg, NextMain(cfg, s))
  {
    if s.main.Spawning? && s.next < |s.pcs| {
      SpawnCounters(cfg, s);
    } else {
      SameCounters(cfg, s, NextMain(cfg, s));
    }
    hide CountersOk;
  }

  /** Every step keeps the control invariant: in particular nothing panics and at most `concurrency` tasks run. */
  lemma ControlKept(cfg: Config, s: State, step: Step)
    requires WellFormed(cfg) && ControlInv(cfg, s) && Enabled(cfg, s, step)
    ensures ControlInv(cfg, Next(cfg, s, step))
  {
    hide CountersOk;
    match step
    case MainStep => MainControl(cfg, s);
    case TaskStep(i, choice) =>
      TaskMoves(cfg, s, i, choice);
      hide ControlInv, NextTask, TaskMoved;
      TaskControl(cfg, s, NextTask(cfg, s, i, choice), i);
    case _ => SameCounters(cfg, s, Next(cfg, s, step));
  }
}
