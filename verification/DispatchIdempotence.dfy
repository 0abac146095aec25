/** The dispatcher closes its own loop: what one run wrote, the next run at that height finds fresh. */
module DispatchIdempotence {
  import opened Counting
  import opened CachedSessions
  import opened BatchWriter
  import opened CacheWriter
  import opened Dispatcher
  import opened DispatcherControl
  import opened DispatcherStream
  import opened DispatcherRun

  /** A cached session of at least this block height. */
  predicate Recent(entry: Entry, height: int) {
    entry.Cached? && entry.session.blockHeight >= height
  }

  predicate HasRecent(cache: Cache<Entry>, key: string, height: int) {
    key in cache && Recent(cache[key], height)
  }

  /** Every item is a session dispatched at or after `height`. */
  ghost predicate AllHigh(items: seq<SessionItem>, height: int) {
    forall m | 0 <= m < |items| :: Recent(items[m].value, height)
  }

  /** SETs of recent sessions keep a fresh key fresh, and make a key they set fresh. */
  lemma FreshAfter(cache: Cache<Entry>, items: seq<SessionItem>, key: string, height: int)
    requires AllHigh(items, height)
    requires HasRecent(cache, key, height) || exists m :: 0 <= m < |items| && items[m].key == key
    ensures HasRecent(ApplyAll(cache, items), key, height)
  {
    ApplyAt(cache, items, key);
    hide ApplyAll;
  }

  ghost predicate FreshAt(cfg: Config, s: State, c: nat, key: string) {
    c < |cfg.caches| && c < |s.out.written| && HasRecent(CacheNow(cfg, s, c), key, cfg.height)
  }

  ghost predicate FreshEverywhere(cfg: Config, key: string) {
    forall c: nat | c < |cfg.caches| :: HasRecent(cfg.caches[c], key, cfg.height)
  }

  /** The task has not gone past the check, or the check told it to stop. */
  predicate NotDispatched(pc: Pc) {
    pc.Waiting? || pc.Starting? || pc.Checking? || (pc.Past() && pc.outcome.Skipped?)
  }

  ghost predicate CheckSound(cfg: Config, s: State, key: string, pc: Pc) {
    && (pc.Checking? ==>
          && pc.todo <= pc.sample && |pc.sample| == Min(|cfg.caches|, cfg.maxClients)
          && pc.good + |pc.todo| <= |pc.sample|
          && (pc.good + |pc.todo| == |pc.sample| ==> forall c | c in pc.sample - pc.todo :: FreshAt(cfg, s, c, key)))
    && (pc.Past() && pc.outcome.Skipped? ==>
          && |pc.outcome.sample| == Min(|cfg.caches|, cfg.maxClients)
          && forall c | c in pc.outcome.sample :: FreshAt(cfg, s, c, key))
    && (FreshEverywhere(cfg, key) ==>
          NotDispatched(pc) && (pc.Checking? ==> pc.good + |pc.todo| == |pc.sample|))
  }

  ghost predicate ChecksOk(cfg: Config, s: State) {
    && |s.pcs| == |cfg.pairs|
    && (AllHigh(s.out.sent, cfg.height) ==> forall i: nat | i < |s.pcs| :: CheckSound(cfg, s, KeyOf(cfg, i), s.pcs[i]))
  }

  lemma InitChecks(cfg: Config)
    ensures ChecksOk(cfg, Init(cfg))
  {
  }

  /** The caches' SETs so far are all recent when the sent items are. */
  lemma WrittenHigh(cfg: Config, s: State, c: nat)
    requires WellFormed(cfg) && StreamOk(cfg, s) && AllHigh(s.out.sent, cfg.height) && c < |s.out.written|
    ensures AllHigh(s.out.written[c], cfg.height)
  {
    WrittenIsPrefix(cfg.batchSize, |cfg.caches|, s.out, c);
    hide StreamOk;
    assert forall m | 0 <= m < |s.out.written[c]| :: s.out.written[c][m] == s.out.sent[m];
  }

  lemma InitiallyFreshStays(cfg: Config, s: State, c: nat, key: string)
    requires WellFormed(cfg) && StreamOk(cfg, s) && AllHigh(s.out.sent, cfg.height)
    requires FreshEverywhere(cfg, key) && c < |cfg.caches|
    ensures FreshAt(cfg, s, c, key)
  {
    WrittenHigh(cfg, s, c);
    FreshAfter(cfg.caches[c], s.out.written[c], key, cfg.height);
  }

  /** A key fresh in one state is fresh after one more SET, and after any step. */
  lemma FreshStays(cfg: Config, s: State, s': State, c: nat, key: string)
    requires FreshAt(cfg, s, c, key) && c < |s'.out.written|
    requires s'.out.written[c] == s.out.written[c] || exists x ::
      s'.out.written[c] == s.out.written[c] + [x] && Recent(x.value, cfg.height)
    ensures FreshAt(cfg, s', c, key)
  {
    if x :| s'.out.written[c] == s.out.written[c] + [x] && Recent(x.value, cfg.height) {
      ApplyAppend(cfg.caches[c], s.out.written[c], [x]);
      FreshAfter(CacheNow(cfg, s, c), [x], key, cfg.height);
    }
  }

  /** What a step does to the caches, when all items sent are recent: at most one recent SET in one of them. */
  ghost predicate CachesMoved(cfg: Config, s: State, s': State) {
    && |s'.out.written| == |s.out.written|
    && forall c: nat | c < |s.out.written| ::
         s'.out.written[c] == s.out.written[c] || exists x ::
             s'.out.written[c] == s.out.written[c] + [x] && Recent(x.value, cfg.height)
  }

  lemma SoundStays(cfg: Config, s: State, s': State, key: string, pc: Pc)
    requires CheckSound(cfg, s, key, pc) && CachesMoved(cfg, s, s')
    ensures CheckSound(cfg, s', key, pc)
  {
    forall c: nat | FreshAt(cfg, s, c, key) ensures FreshAt(cfg, s', c, key) {
      FreshStays(cfg, s, s', c, key);
    }
    hide FreshAt, FreshEverywhere;
  }

  lemma MonitorMovesCaches(cfg: Config, s: State, m: MonitorStep)
    requires WellFormed(cfg) && StreamOk(cfg, s) && CanStep(s.out, m) && AllHigh(s.out.sent, cfg.height)
    ensures var s' := s.(out := Stepped(s.out, cfg.batchSize, m)); CachesMoved(cfg, s, s') && s'.out.sent == s.out.sent
  {
    match m
    case Write(c) =>
      var w, x := s.out, s.out.mon.items[|s.out.written[c]| - |s.out.flushed|];
      hide Flat, Chunks;
      assert w.sent[|w.written[c]|] == x;
      assert NextWrite(w, c).written[c] == w.written[c] + [x];
    case _ =>
  }

  /** The mover's own check after its step. */
  lemma MoverSound(cfg: Config, s: State, i: nat, choice: Choice)
    requires WellFormed(cfg) && StreamOk(cfg, s) && ControlInv(cfg, s) && TaskEnabled(cfg, s, i, choice)
    requires AllHigh(s.out.sent, cfg.height) && CheckSound(cfg, s, KeyOf(cfg, i), s.pcs[i])
    ensures var s' := NextTask(cfg, s, i, choice); CheckSound(cfg, s, KeyOf(cfg, i), s'.pcs[i])
  {
    var key, s' := KeyOf(cfg, i), NextTask(cfg, s, i, choice);
    TaskMoves(cfg, s, i, choice);
    if s.pcs[i].Checking? && s.pcs[i].todo != {} {
      ReadSound(cfg, s, i, choice.cache);
    } else if s.pcs[i].Pending() {
      PendingKeepsOpen(cfg, s, i);
      hide ControlInv, StreamOk, CacheNow, FreshAt, FreshEverywhere, TaskMoved, AllHigh, IsFresh, Recent;
      if s.pcs[i].Checking? {
        assert s.pcs[i].sample - s.pcs[i].todo == s.pcs[i].sample;
      }
    } else {
      hide ControlInv, StreamOk, CacheNow, FreshAt, FreshEverywhere, TaskMoved, AllHigh, IsFresh, Recent;
    }
  }

  lemma ReadShape(cfg: Config, s: State, i: nat, c: nat)
    requires TaskEnabled(cfg, s, i, Read(c)) && s.pcs[i].Checking? && c in s.pcs[i].todo
    ensures var pc, hit := s.pcs[i], if FreshAt(cfg, s, c, KeyOf(cfg, i)) then 1 else 0;
      && i < |NextTask(cfg, s, i, Read(c)).pcs|
      && NextTask(cfg, s, i, Read(c)).pcs[i] == Checking(pc.sample, pc.todo - {c}, pc.good + hit)
  {
  }

  lemma ReadSound(cfg: Config, s: State, i: nat, c: nat)
    requires WellFormed(cfg) && StreamOk(cfg, s) && TaskEnabled(cfg, s, i, Read(c))
    requires AllHigh(s.out.sent, cfg.height) && CheckSound(cfg, s, KeyOf(cfg, i), s.pcs[i])
    requires s.pcs[i].Checking? && c in s.pcs[i].todo
    ensures CheckSound(cfg, s, KeyOf(cfg, i), NextTask(cfg, s, i, Read(c)).pcs[i])
  {
    var key, pc := KeyOf(cfg, i), s.pcs[i];
    ReadShape(cfg, s, i, c);
    hide NextTask, TaskEnabled;
    if FreshEverywhere(cfg, key) {
      InitiallyFreshStays(cfg, s, c, key);
    }
    hide CacheNow, FreshAt, FreshEverywhere, StreamOk, AllHigh, IsFresh, Recent;
    assert pc.sample - (pc.todo - {c}) == (pc.sample - pc.todo) + {c};
  }

  lemma HighEarlier(s: State, s': State, height: int)
    requires s.out.sent <= s'.out.sent && AllHigh(s'.out.sent, height)
    ensures AllHigh(s.out.sent, height)
  {
    assert forall m | 0 <= m < |s.out.sent| :: s.out.sent[m] == s'.out.sent[m];
  }

  lemma TaskChecks(cfg: Config, s: State, i: nat, choice: Choice)
    requires WellFormed(cfg) && Inv(cfg, s) && ChecksOk(cfg, s) && TaskEnabled(cfg, s, i, choice)
    ensures ChecksOk(cfg, NextTask(cfg, s, i, choice))
  {
    var s' := NextTask(cfg, s, i, choice);
    TaskMoves(cfg, s, i, choice);
    hide NextTask, ControlInv, StreamOk, AccountInv, AllHigh, CheckSound;
    if AllHigh(s'.out.sent, cfg.height) {
      HighEarlier(s, s', cfg.height);
      assert CheckSound(cfg, s, KeyOf(cfg, i), s.pcs[i]);
      MoverSound(cfg, s, i, choice);
      forall j: nat | j < |s'.pcs| ensures CheckSound(cfg, s', KeyOf(cfg, j), s'.pcs[j]) {
        assert CheckSound(cfg, s, KeyOf(cfg, j), s'.pcs[j]);
        SoundStays(cfg, s, s', KeyOf(cfg, j), s'.pcs[j]);
      }
    }
  }

  lemma OtherChecks(cfg: Config, s: State, s': State)
    requires ChecksOk(cfg, s) && s'.out.sent == s.out.sent && |s'.pcs| == |s.pcs|
    requires AllHigh(s.out.sent, cfg.height) ==> CachesMoved(cfg, s, s')
    requires forall i: nat | i < |s.pcs| :: s'.pcs[i] == s.pcs[i] || s'.pcs[i] == Starting
    ensures ChecksOk(cfg, s')
  {
    hide AllHigh, CachesMoved;
    if AllHigh(s.out.sent, cfg.height) {
      forall j: nat | j < |s'.pcs| ensures CheckSound(cfg, s', KeyOf(cfg, j), s'.pcs[j]) {
        if s'.pcs[j] == s.pcs[j] {
          assert CheckSound(cfg, s, KeyOf(cfg, j), s.pcs[j]);
          SoundStays(cfg, s, s', KeyOf(cfg, j), s'.pcs[j]);
        }
      }
    }
  }

  lemma ChecksKept(cfg: Config, s: State, step: Step)
    requires WellFormed(cfg) && Inv(cfg, s) && ChecksOk(cfg, s) && Enabled(cfg, s, step)
    ensures ChecksOk(cfg, Next(cfg, s, step))
  {
    hide ControlInv, StreamOk, AccountInv, ChecksOk;
    match step
    case TaskStep(i, choice) => TaskChecks(cfg, s, i, choice);
    case Monitor(m) =>
      if AllHigh(s.out.sent, cfg.height) {
        MonitorMovesCaches(cfg, s, m);
      }
      hide CachesMoved, AllHigh;
      OtherChecks(cfg, s, Next(cfg, s, step));
    case _ => OtherChecks(cfg, s, Next(cfg, s, step));
  }

  lemma {:induction false} ChecksTrace(cfg: Config, s: State, trace: seq<Step>)
    requires WellFormed(cfg) && Inv(cfg, s) && ChecksOk(cfg, s) && Possible(cfg, s, trace)
    ensures ChecksOk(cfg, After(cfg, s, trace))
    decreases |trace|
  {
    if trace != [] {
      hide Inv, ChecksOk, Next, Enabled;
      StepKept(cfg, s, trace[0]);
      ChecksKept(cfg, s, trace[0]);
      ChecksTrace(cfg, Next(cfg, s, trace[0]), trace[1..]);
    }
  }

  /** A pair whose key is fresh in all caches at the start of a run is not dispatched by it. */
  lemma FreshIsNotDispatched(cfg: Config, trace: seq<Step>, i: nat)
    requires WellFormed(cfg) && Possible(cfg, Init(cfg), trace) && i < |cfg.pairs|
    requires AllHigh(After(cfg, Init(cfg), trace).out.sent, cfg.height) && FreshEverywhere(cfg, KeyOf(cfg, i))
    ensures var s := After(cfg, Init(cfg), trace); i < |s.pcs| && NotDispatched(s.pcs[i])
  {
    InitInv(cfg);
    InitChecks(cfg);
    ChecksTrace(cfg, Init(cfg), trace);
    var s := After(cfg, Init(cfg), trace);
    hide After, Init, Possible;
    assert CheckSound(cfg, s, KeyOf(cfg, i), s.pcs[i]);
  }

  /** At the return, the key of a task that sent a session is fresh in every cache. */
  lemma SentIsFresh(cfg: Config, s: State, i: nat, c: nat)
    requires WellFormed(cfg) && Inv(cfg, s) && s.main.Returned? && AllHigh(s.out.sent, cfg.height)
    requires i < |s.pcs| && IsSent(s.pcs[i]) && c < |cfg.caches|
    ensures FreshAt(cfg, s, c, KeyOf(cfg, i))
  {
    ReturnedMeans(cfg, s);
    SentItem(cfg, s, i);
    hide ControlInv, StreamOk, AccountInv, AllHigh;
    FreshAfter(cfg.caches[c], s.out.sent, KeyOf(cfg, i), cfg.height);
  }

  lemma SentItem(cfg: Config, s: State, i: nat)
    requires AccountInv(cfg, s) && i < |s.pcs| && IsSent(s.pcs[i])
    ensures exists m :: 0 <= m < |s.out.sent| && s.out.sent[m].key == KeyOf(cfg, i)
  {
    assert ItemOk(cfg, i, s.pcs[i].outcome.item);
    hide FailuresOk, ItemsOk;
    var m :| 0 <= m < |s.senders| && s.senders[m] == i;
    assert s.out.sent[m] == s.pcs[i].outcome.item;
  }

  /** At the return, the key of a task that checked all caches and was told to stop is fresh in every cache. */
  lemma SkippedIsFresh(cfg: Config, s: State, i: nat, c: nat)
    requires ChecksOk(cfg, s) && AllHigh(s.out.sent, cfg.height)
    requires i < |s.pcs| && s.pcs[i].Past() && s.pcs[i].outcome.Skipped? && c < |cfg.caches|
    requires cfg.maxClients >= |cfg.caches|
    ensures FreshAt(cfg, s, c, KeyOf(cfg, i))
  {
    assert CheckSound(cfg, s, KeyOf(cfg, i), s.pcs[i]);
    var sample := s.pcs[i].outcome.sample;
    assert forall d | d in sample :: d < |cfg.caches|;
    FullSample(sample, |cfg.caches|, c);
  }

  lemma FullSample(sample: set<nat>, n: nat, c: nat)
    requires |sample| == n && (forall d | d in sample :: d < n) && c < n
    ensures c in sample
  {
    if c !in sample {
      BelowSize(sample + {c}, n);
    }
  }

  /** The second run starts from the caches the first one left, at a height the first one has reached. */
  ghost predicate Follows(cfg1: Config, s1: State, cfg2: Config) {
    && |cfg2.caches| == |cfg1.caches| == |s1.out.written|
    && (forall c: nat | c < |cfg1.caches| :: cfg2.caches[c] == CacheNow(cfg1, s1, c))
    && cfg2.height <= cfg1.height
  }

  lemma CarriesOver(cfg1: Config, s1: State, cfg2: Config, key: string)
    requires Follows(cfg1, s1, cfg2) && forall c: nat | c < |cfg1.caches| :: FreshAt(cfg1, s1, c, key)
    ensures FreshEverywhere(cfg2, key)
  {
    forall c: nat | c < |cfg2.caches| ensures HasRecent(cfg2.caches[c], key, cfg2.height) {
      assert FreshAt(cfg1, s1, c, key);
    }
  }

  lemma FreshForNextRun(cfg: Config, trace: seq<Step>, i: nat)
    requires WellFormed(cfg) && Possible(cfg, Init(cfg), trace) && After(cfg, Init(cfg), trace).main.Returned?
    requires var s := After(cfg, Init(cfg), trace);
      && AllHigh(s.out.sent, cfg.height) && i < |s.pcs| && s.pcs[i].Past() && i < |cfg.pairs|
      && (IsSent(s.pcs[i]) || (s.pcs[i].outcome.Skipped? && cfg.maxClients >= |cfg.caches|))
    ensures var s := After(cfg, Init(cfg), trace);
      forall c: nat | c < |cfg.caches| :: FreshAt(cfg, s, c, KeyOf(cfg, i))
  {
    var s := After(cfg, Init(cfg), trace);
    InitInv(cfg);
    InitChecks(cfg);
    TraceKept(cfg, Init(cfg), trace);
    ChecksTrace(cfg, Init(cfg), trace);
    hide After, Init, Possible, Inv, ChecksOk, AllHigh, FreshAt;
    forall c: nat | c < |cfg.caches| ensures FreshAt(cfg, s, c, KeyOf(cfg, i)) {
      if IsSent(s.pcs[i]) {
        SentIsFresh(cfg, s, i, c);
      } else {
        SkippedIsFresh(cfg, s, i, c);
      }
    }
  }

  /**
   Idempotence, for every interleaving and shuffle of both runs: a pair the first run dispatched into the caches is not
   dispatched by a second run at that height; nor is one the first run skipped, if it samples all caches.
   */
  lemma SecondRunDispatchesNothingAgain(
    cfg1: Config, trace1: seq<Step>, i: nat, cfg2: Config, trace2: seq<Step>, j: nat)
    requires WellFormed(cfg1) && Possible(cfg1, Init(cfg1), trace1) && After(cfg1, Init(cfg1), trace1).main.Returned?
    requires var s := After(cfg1, Init(cfg1), trace1);
      && AllHigh(s.out.sent, cfg1.height) && Follows(cfg1, s, cfg2)
      && i < |s.pcs| && s.pcs[i].Past() && i < |cfg1.pairs|
      && (IsSent(s.pcs[i]) || (s.pcs[i].outcome.Skipped? && cfg1.maxClients >= |cfg1.caches|))
    requires WellFormed(cfg2) && Possible(cfg2, Init(cfg2), trace2)
    requires AllHigh(After(cfg2, Init(cfg2), trace2).out.sent, cfg2.height)
    requires j < |cfg2.pairs| && KeyOf(cfg2, j) == KeyOf(cfg1, i)
    ensures var s := After(cfg2, Init(cfg2), trace2); j < |s.pcs| && NotDispatched(s.pcs[j])
  {
    FreshForNextRun(cfg1, trace1, i);
    hide AllHigh, FreshAt, FreshEverywhere, Follows;
    CarriesOver(cfg1, After(cfg1, Init(cfg1), trace1), cfg2, KeyOf(cfg1, i));
    FreshIsNotDispatched(cfg2, trace2, j);
  }
}
