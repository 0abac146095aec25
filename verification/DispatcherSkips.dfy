/**
 Why a task of the dispatcher stops at the freshness check, or goes on: what it has read from the caches it sampled.
 */
module DispatcherSkips {
  import opened CachedSessions
  import opened BatchWriter
  import opened CacheWriter
  import opened Dispatcher
  import opened DispatcherControl
  import opened DispatcherStream
  import opened DispatcherRun
  import opened DispatcherReplies
  import opened DispatchIdempotence

  /** At some moment up to now cache `c` held, or lacked, a session of at least the current height under this key. */
  ghost predicate WasRecent(cfg: Config, s: State, c: nat, key: string, recent: bool) {
    && c < |cfg.caches| && c < |s.out.written|
    && exists n: nat ::
         n <= |s.out.written[c]| && HasRecent(CacheAfter(cfg, s, c, n), key, cfg.height) == recent
  }

  /** Cache `c` after its first `n` SETs. */
  function CacheAfter(cfg: Config, s: State, c: nat, n: nat): Cache<Entry>
    requires c < |cfg.caches| && c < |s.out.written| && n <= |s.out.written[c]|
  {
    ApplyAll(cfg.caches[c], s.out.written[c][..n])
  }

  ghost predicate ReadAll(cfg: Config, s: State, key: string, sample: set<nat>) {
    && |sample| == (if |cfg.caches| < cfg.maxClients then |cfg.caches| else cfg.maxClients)
    && forall c | c in sample :: WasRecent(cfg, s, c, key, true)
  }

  ghost predicate ReadStale(cfg: Config, s: State, key: string) {
    exists c :: WasRecent(cfg, s, c, key, false)
  }

  ghost predicate CheckExplained(cfg: Config, s: State, key: string, sample: set<nat>, todo: set<nat>, good: nat) {
    && todo <= sample && good + |todo| <= |sample|
    && |sample| == (if |cfg.caches| < cfg.maxClients then |cfg.caches| else cfg.maxClients)
    && if good + |todo| == |sample| then forall c | c in sample - todo :: WasRecent(cfg, s, c, key, true)
       else ReadStale(cfg, s, key)
  }

  /** A check is explained by what it has read so far; a task past it by what it had read by then. */
  ghost predicate Explained(cfg: Config, s: State, key: string, pc: Pc) {
    match pc
    case Waiting => true
    case Starting => true
    case Checking(sample, todo, good) => CheckExplained(cfg, s, key, sample, todo, good)
    case _ =>
      if pc.Past() && pc.outcome.Skipped? then ReadAll(cfg, s, key, pc.outcome.sample) else ReadStale(cfg, s, key)
  }

  ghost predicate AllExplained(cfg: Config, s: State) {
    |s.pcs| == |cfg.pairs| && forall i: nat | i < |s.pcs| :: Explained(cfg, s, KeyOf(cfg, i), s.pcs[i])
  }

  ghost predicate WrittenGrows(s: State, s': State) {
    |s'.out.written| == |s.out.written| && forall c | 0 <= c < |s.out.written| :: s.out.written[c] <= s'.out.written[c]
  }

  lemma WasStays(cfg: Config, s: State, s': State, c: nat, key: string, recent: bool)
    requires WrittenGrows(s, s') && WasRecent(cfg, s, c, key, recent)
    ensures WasRecent(cfg, s', c, key, recent)
  {
    var n: nat :| n <= |s.out.written[c]| && HasRecent(CacheAfter(cfg, s, c, n), key, cfg.height) == recent;
    assert s'.out.written[c][..n] == s.out.written[c][..n];
    assert CacheAfter(cfg, s', c, n) == CacheAfter(cfg, s, c, n);
  }

  lemma ExplainedStays(cfg: Config, s: State, s': State, key: string, pc: Pc)
    requires WrittenGrows(s, s') && Explained(cfg, s, key, pc)
    ensures Explained(cfg, s', key, pc)
  {
    forall c, recent | WasRecent(cfg, s, c, key, recent) ensures WasRecent(cfg, s', c, key, recent) {
      WasStays(cfg, s, s', c, key, recent);
    }
    hide WasRecent, WrittenGrows;
  }

  /** A cache is read as it is now. */
  lemma ReadNow(cfg: Config, s: State, c: nat, key: string)
    requires c < |cfg.caches| && c < |s.out.written|
    ensures WasRecent(cfg, s, c, key, IsFresh(Lookup(CacheNow(cfg, s, c), key), cfg.height))
  {
    var n := |s.out.written[c]|;
    assert s.out.written[c][..n] == s.out.written[c];
    assert HasRecent(CacheAfter(cfg, s, c, n), key, cfg.height)
      == IsFresh(Lookup(CacheNow(cfg, s, c), key), cfg.height);
  }

  lemma ReadExplained(cfg: Config, s: State, i: nat, c: nat)
    requires TaskEnabled(cfg, s, i, Read(c)) && s.pcs[i].Checking? && c in s.pcs[i].todo
    requires Explained(cfg, s, KeyOf(cfg, i), s.pcs[i])
    ensures i < |NextTask(cfg, s, i, Read(c)).pcs|
    ensures Explained(cfg, s, KeyOf(cfg, i), NextTask(cfg, s, i, Read(c)).pcs[i])
  {
    var key, pc := KeyOf(cfg, i), s.pcs[i];
    ReadNow(cfg, s, c, key);
    var hit := IsFresh(Lookup(CacheNow(cfg, s, c), key), cfg.height);
    assert NextTask(cfg, s, i, Read(c)).pcs[i] == Checking(pc.sample, pc.todo - {c}, pc.good + if hit then 1 else 0);
    hide NextTask, TaskEnabled, WasRecent, IsFresh, CacheNow, Lookup, KeyOf;
    assert pc.sample - (pc.todo - {c}) == (pc.sample - pc.todo) + {c};
    assert |pc.todo - {c}| == |pc.todo| - 1;
  }

  lemma MoverExplained(cfg: Config, s: State, i: nat, choice: Choice)
    requires ControlInv(cfg, s) && TaskEnabled(cfg, s, i, choice) && Explained(cfg, s, KeyOf(cfg, i), s.pcs[i])
    ensures i < |NextTask(cfg, s, i, choice).pcs|
    ensures Explained(cfg, s, KeyOf(cfg, i), NextTask(cfg, s, i, choice).pcs[i])
  {
    if s.pcs[i].Checking? && s.pcs[i].todo != {} {
      ReadExplained(cfg, s, i, choice.cache);
    } else if s.pcs[i].Pending() {
      PendingKeepsOpen(cfg, s, i);
      hide ControlInv, WasRecent, IsFresh, CacheNow, Lookup, KeyOf;
      if s.pcs[i].Checking? {
        assert s.pcs[i].sample - s.pcs[i].todo == s.pcs[i].sample;
      } else if s.pcs[i].Starting? {
        assert choice.sample - choice.sample == {};
      }
    } else {
      hide ControlInv, WasRecent, IsFresh, CacheNow, Lookup, KeyOf;
    }
  }

  lemma TaskExplains(cfg: Config, s: State, i: nat, choice: Choice)
    requires ControlInv(cfg, s) && AllExplained(cfg, s) && TaskEnabled(cfg, s, i, choice)
    ensures AllExplained(cfg, NextTask(cfg, s, i, choice))
  {
    var s' := NextTask(cfg, s, i, choice);
    TaskMoves(cfg, s, i, choice);
    MoverExplained(cfg, s, i, choice);
    hide NextTask, ControlInv, Explained;
    assert WrittenGrows(s, s');
    forall j: nat | j < |s'.pcs| ensures Explained(cfg, s', KeyOf(cfg, j), s'.pcs[j]) {
      assert Explained(cfg, s, KeyOf(cfg, j), s'.pcs[j]);
      ExplainedStays(cfg, s, s', KeyOf(cfg, j), s'.pcs[j]);
    }
  }

  lemma OtherExplains(cfg: Config, s: State, s': State)
    requires AllExplained(cfg, s) && WrittenGrows(s, s') && |s'.pcs| == |s.pcs|
    requires forall i: nat | i < |s.pcs| :: s'.pcs[i] == s.pcs[i] || s'.pcs[i].Starting?
    ensures AllExplained(cfg, s')
  {
    forall j: nat | j < |s'.pcs| ensures Explained(cfg, s', KeyOf(cfg, j), s'.pcs[j]) {
      if s'.pcs[j] == s.pcs[j] {
        ExplainedStays(cfg, s, s', KeyOf(cfg, j), s'.pcs[j]);
      }
    }
  }

  lemma MonitorGrows(cfg: Config, s: State, m: MonitorStep)
    requires CanStep(s.out, m)
    ensures WrittenGrows(s, s.(out := Stepped(s.out, cfg.batchSize, m)))
  {
  }

  lemma StepExplains(cfg: Config, s: State, step: Step)
    requires ControlInv(cfg, s) && AllExplained(cfg, s) && Enabled(cfg, s, step)
    ensures AllExplained(cfg, Next(cfg, s, step))
  {
    hide AllExplained, NextTask, CountersOk;
    match step
    case MainStep => OtherExplains(cfg, s, Next(cfg, s, step));
    case TaskStep(i, choice) => TaskExplains(cfg, s, i, choice);
    case Monitor(m) =>
      MonitorGrows(cfg, s, m);
      OtherExplains(cfg, s, Next(cfg, s, step));
  }

  lemma {:induction false} TraceExplains(cfg: Config, s: State, trace: seq<Step>)
    requires WellFormed(cfg) && Inv(cfg, s) && AllExplained(cfg, s) && Possible(cfg, s, trace)
    ensures AllExplained(cfg, After(cfg, s, trace))
    decreases |trace|
  {
    if trace != [] {
      hide AllExplained, ControlInv, StreamOk, AccountInv, Next, Enabled;
      StepExplains(cfg, s, trace[0]);
      StepKept(cfg, s, trace[0]);
      TraceExplains(cfg, Next(cfg, s, trace[0]), trace[1..]);
    }
  }

  /** The task is past the check without having been told to stop. */
  predicate WentOn(pc: Pc) {
    pc.Dispatching? || pc.CountingFailure? || pc.Sending? || (pc.Past() && !pc.outcome.Skipped?)
  }

  /**
   In every state of every interleaving: a task that stopped at the check had sampled min(caches, maxClients) caches and
   read from each of them a session of at least the current height under the key of its pair; a task that went on had
   read a cache without one.
   */
  lemma ChecksExplained(cfg: Config, trace: seq<Step>, i: nat)
    requires WellFormed(cfg) && Possible(cfg, Init(cfg), trace) && i < |cfg.pairs|
    ensures var s, key := After(cfg, Init(cfg), trace),
        cfg.keyPrefix + "-" + cfg.pairs[i].publicKey + "-" + cfg.pairs[i].chain;
      && i < |s.pcs|
      && (s.pcs[i].Past() && s.pcs[i].outcome.Skipped? ==> ReadAll(cfg, s, key, s.pcs[i].outcome.sample))
      && (WentOn(s.pcs[i]) ==> ReadStale(cfg, s, key))
  {
    InitInv(cfg);
    TraceExplains(cfg, Init(cfg), trace);
    KeyIsPrinted(cfg, i);
    var s := After(cfg, Init(cfg), trace);
    hide After, Init, Possible, ReadAll, ReadStale;
    assert Explained(cfg, s, KeyOf(cfg, i), s.pcs[i]);
  }
}
