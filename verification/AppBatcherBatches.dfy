/** What becomes of the submissions of the lambda batcher: every processed one is accounted for, once. */
module AppBatcherBatches {
  import opened Arithmetic
  import opened AppBatcher
  import opened AppBatcherTokens

  /** The pending batch maps each key to the last submission with it. */
  ghost predicate BatchOk(s: State) {
    && s.processed <= |s.submitted|
    && (forall k | k in s.batch ::
          s.batch[k] < s.processed && !s.submitted[s.batch[k]].invalid && s.submitted[s.batch[k]].appKey == k)
  }

  ghost predicate FatesOk(s: State) {
    && s.processed <= |s.submitted|
    && (forall m | m in s.flushed ::
        m < s.processed && !s.submitted[m].invalid && m !in s.batch.Values && m !in s.superseded)
    && (forall m | m in s.superseded ::
          && m < s.superseded[m] < s.processed && m !in s.batch.Values
          && !s.submitted[m].invalid && !s.submitted[s.superseded[m]].invalid
          && s.submitted[s.superseded[m]].appKey == s.submitted[m].appKey)
    && (forall m | m in s.invalid :: m < s.processed && s.submitted[m].invalid)
  }

  ghost predicate CountsOk(s: State) {
    s.processed == |s.flushed| + |s.batch| + |s.superseded| + |s.invalid|
  }

  /** A flush is of exactly `checksPerInvoke` applications, unless it is the one of the last submission of all. */
  predicate FullOrLast(cfg: Config, check: Check) {
    || |check.batch| == cfg.checksPerInvoke
    || (check.pos + 1 >= cfg.totalApps && |check.batch| <= cfg.checksPerInvoke)
  }

  ghost predicate SizesOk(cfg: Config, s: State) {
    forall f | 0 <= f < |s.checks| :: FullOrLast(cfg, s.checks[f])
  }

  ghost predicate ResidueOk(cfg: Config, s: State) {
    && |s.batch| <= cfg.checksPerInvoke
    && (s.mon.Idle? ==> |s.batch| < cfg.checksPerInvoke)
    && (s.mon.Idle? && s.processed >= cfg.totalApps ==> s.batch == map[])
  }

  /** Before the last submission of all is decided, only full batches have been flushed. */
  ghost predicate FullOk(cfg: Config, s: State) {
    Decided(s) < cfg.totalApps ==> |s.flushed| == Times(cfg.checksPerInvoke, |s.checks|)
  }

  /** Position `m` is in the batch of a performChecks call. */
  ghost predicate Checked(s: State, m: nat) {
    exists f :: 0 <= f < |s.checks| && m in s.checks[f].batch.Values
  }

  /** What has been flushed is what performChecks calls were given, each position to one of them. */
  ghost predicate ChecksOk(s: State) {
    && (forall m :: m in s.flushed <==> Checked(s, m))
    && (forall f, g | 0 <= f < g < |s.checks| :: s.checks[f].batch.Values !! s.checks[g].batch.Values)
  }

  ghost predicate BatchInv(cfg: Config, s: State) {
    BatchOk(s) && FatesOk(s) && CountsOk(s) && SizesOk(cfg, s) && ResidueOk(cfg, s) && FullOk(cfg, s)
    && ChecksOk(s)
  }

  lemma InitBatches(cfg: Config)
    requires WellFormed(cfg)
    ensures BatchInv(cfg, Init(cfg))
  {
  }

  lemma ReceiveBatches(s: State)
    requires BatchOk(s) && FatesOk(s) && ReceiveEnabled(s)
    ensures BatchOk(NextReceive(s))
  {
  }

  lemma InvalidFates(s: State)
    requires BatchOk(s) && FatesOk(s) && ReceiveEnabled(s) && s.submitted[s.processed].invalid
    ensures FatesOk(NextReceive(s))
  {
  }

  lemma NewKeyFates(s: State)
    requires BatchOk(s) && FatesOk(s) && ReceiveEnabled(s) && !s.submitted[s.processed].invalid
    requires s.submitted[s.processed].appKey !in s.batch
    ensures FatesOk(NextReceive(s))
  {
    var s' := NextReceive(s);
    forall m | m in s'.batch.Values ensures m == s.processed || m in s.batch.Values {
    }
  }

  lemma SameKeyFates(s: State)
    requires BatchOk(s) && FatesOk(s) && ReceiveEnabled(s) && !s.submitted[s.processed].invalid
    requires s.submitted[s.processed].appKey in s.batch
    ensures FatesOk(NextReceive(s))
  {
    var s', gone := NextReceive(s), s.batch[s.submitted[s.processed].appKey];
    forall m | m in s'.batch.Values ensures m == s.processed || m in s.batch.Values {
    }
    assert gone in s.batch.Values;
    forall k | k in s'.batch ensures s'.batch[k] != gone {
    }
  }

  lemma ReceiveFates(s: State)
    requires BatchOk(s) && FatesOk(s) && ReceiveEnabled(s)
    ensures FatesOk(NextReceive(s))
  {
    hide NextReceive, FatesOk, BatchOk;
    if s.submitted[s.processed].invalid {
      InvalidFates(s);
    } else if s.submitted[s.processed].appKey in s.batch {
      SameKeyFates(s);
    } else {
      NewKeyFates(s);
    }
  }

  lemma ReceiveCounts(s: State)
    requires BatchOk(s) && FatesOk(s) && CountsOk(s) && ReceiveEnabled(s)
    ensures CountsOk(NextReceive(s))
  {
    var sub := s.submitted[s.processed];
    if sub.invalid {
      assert s.processed !in s.invalid;
    } else if sub.appKey in s.batch {
      assert s.batch[sub.appKey] in s.batch.Values && s.batch[sub.appKey] !in s.superseded;
      hide FatesOk, BatchOk;
      OldKey(s.batch, sub.appKey, s.processed);
      NewKey(s.superseded, s.batch[sub.appKey], s.processed);
    } else {
      hide FatesOk, BatchOk;
      NewKey(s.batch, sub.appKey, s.processed);
    }
  }

  lemma NewKey<K>(m: map<K, nat>, k: K, v: nat)
    requires k !in m
    ensures |m[k := v]| == |m| + 1
  {
    assert m[k := v].Keys == m.Keys + {k};
    assert |m.Keys| == |m| && |m[k := v].Keys| == |m[k := v]|;
  }

  lemma OldKey<K>(m: map<K, nat>, k: K, v: nat)
    requires k in m
    ensures |m[k := v]| == |m|
  {
    assert m[k := v].Keys == m.Keys;
    assert |m.Keys| == |m| && |m[k := v].Keys| == |m[k := v]|;
  }

  lemma ReceiveChecks(s: State)
    requires ChecksOk(s) && ReceiveEnabled(s)
    ensures ChecksOk(NextReceive(s))
  {
    SameChecks(s, NextReceive(s));
  }

  lemma ReceiveSizes(cfg: Config, s: State)
    requires WellFormed(cfg) && SizesOk(cfg, s) && ResidueOk(cfg, s) && FullOk(cfg, s) && ReceiveEnabled(s)
    ensures var s' := NextReceive(s); SizesOk(cfg, s') && ResidueOk(cfg, s') && FullOk(cfg, s')
  {
    var sub := s.submitted[s.processed];
    if sub.appKey in s.batch {
      OldKey(s.batch, sub.appKey, s.processed);
    } else {
      NewKey(s.batch, sub.appKey, s.processed);
    }
    hide Times;
  }

  /** A batch holds as many submissions as keys. */
  lemma {:induction false} ValuesSize(batch: map<string, nat>)
    requires forall k, l | k in batch && l in batch && k != l :: batch[k] != batch[l]
    ensures |batch.Values| == |batch|
  {
    if batch != map[] {
      var k :| k in batch;
      var rest := batch - {k};
      assert rest.Keys == batch.Keys - {k};
      assert |rest.Keys| == |batch.Keys| - 1;
      ValuesSize(rest);
      forall v ensures v in batch.Values <==> v in rest.Values + {batch[k]} {
        if v in batch.Values {
          var l :| l in batch && batch[l] == v;
          assert l == k || (l in rest && rest[l] == v);
        }
        if v in rest.Values {
          var l :| l in rest && rest[l] == v;
          assert l in batch && batch[l] == v;
        }
      }
      assert batch.Values == rest.Values + {batch[k]};
      assert batch[k] !in rest.Values;
    }
  }

  lemma BatchValues(s: State)
    requires BatchOk(s) && FatesOk(s)
    ensures |s.flushed + s.batch.Values| == |s.flushed| + |s.batch|
  {
    forall k, l | k in s.batch && l in s.batch && k != l ensures s.batch[k] != s.batch[l] {
      assert s.submitted[s.batch[k]].appKey == k && s.submitted[s.batch[l]].appKey == l;
    }
    ValuesSize(s.batch);
    assert s.flushed !! s.batch.Values;
  }

  /** What a flush changes. */
  ghost predicate Flushed(s: State, s': State, check: Check) {
    && s'.submitted == s.submitted && s'.processed == s.processed && s'.mon.Idle?
    && s'.checks == s.checks + [check] && check.batch == s.batch && check.pos == s.processed - 1
    && s'.flushed == s.flushed + s.batch.Values && s'.batch == map[]
    && s'.superseded == s.superseded && s'.invalid == s.invalid
  }

  lemma FlushChecks(s: State, s': State, check: Check)
    requires FatesOk(s) && ChecksOk(s) && Flushed(s, s', check)
    ensures ChecksOk(s')
  {
    var n := |s.checks|;
    assert s.flushed !! s.batch.Values;
    hide FatesOk;
    assert s'.checks[n] == check && forall f | 0 <= f < n :: s'.checks[f] == s.checks[f];
    forall m ensures m in s'.flushed <==> Checked(s', m) {
      assert m in s.flushed <==> Checked(s, m);
      assert m in s.batch.Values ==> m in s'.checks[n].batch.Values;
    }
    forall f | 0 <= f < n ensures s.checks[f].batch.Values <= s.flushed {
      assert forall m | m in s.checks[f].batch.Values :: Checked(s, m);
    }
    hide Checked;
  }

  lemma SameChecks(s: State, s': State)
    requires ChecksOk(s) && s'.flushed == s.flushed && |s'.checks| == |s.checks|
    requires forall f | 0 <= f < |s.checks| :: s'.checks[f].batch == s.checks[f].batch
    ensures ChecksOk(s')
  {
    forall m ensures m in s'.flushed <==> Checked(s', m) {
      assert m in s.flushed <==> Checked(s, m);
    }
  }

  lemma FlushBatches(s: State, s': State, check: Check)
    requires BatchOk(s) && FatesOk(s) && CountsOk(s) && Flushed(s, s', check)
    ensures BatchOk(s') && FatesOk(s') && CountsOk(s')
  {
    BatchValues(s);
    forall m | m in s.batch.Values ensures m < s.processed && !s.submitted[m].invalid {
      var k :| k in s.batch && s.batch[k] == m;
    }
    assert s'.batch.Values == {};
  }

  lemma FlushSizes(cfg: Config, s: State, s': State, check: Check)
    requires WellFormed(cfg) && SizesOk(cfg, s) && ResidueOk(cfg, s)
    requires 0 < s.processed <= cfg.totalApps && Flushes(cfg, s)
    requires s'.checks == s.checks + [check] && check.batch == s.batch && check.pos == s.processed - 1
    ensures SizesOk(cfg, s')
  {
    assert FullOrLast(cfg, check);
    forall f | 0 <= f < |s'.checks| ensures FullOrLast(cfg, s'.checks[f]) {
      if f < |s.checks| {
        assert s'.checks[f] == s.checks[f];
      }
    }
  }

  lemma FlushFull(cfg: Config, s: State, s': State)
    requires WellFormed(cfg) && ResidueOk(cfg, s) && FullOk(cfg, s)
    requires s.mon.Deciding? && 0 < s.processed <= cfg.totalApps && Flushes(cfg, s)
    requires s'.mon.Idle? && s'.processed == s.processed && |s'.checks| == |s.checks| + 1
    requires |s'.flushed| == |s.flushed| + |s.batch|
    ensures FullOk(cfg, s')
  {
    TimesNext(cfg.checksPerInvoke, |s.checks|);
    hide Times;
  }

  /** Steps that touch neither the batch nor what became of submissions. */
  ghost predicate Untouched(cfg: Config, s: State, s': State) {
    && |s.submitted| <= |s'.submitted| && s'.submitted[..|s.submitted|] == s.submitted
    && s'.processed == s.processed && s'.batch == s.batch && s'.flushed == s.flushed
    && s'.superseded == s.superseded && s'.invalid == s.invalid
    && |s'.checks| == |s.checks|
    && (forall f | 0 <= f < |s.checks| ::
        s'.checks[f].pos == s.checks[f].pos && s'.checks[f].batch == s.checks[f].batch)
    && (s'.mon == s.mon || (s.mon.Deciding? && s'.mon.Idle? && !Flushes(cfg, s)))
  }

  lemma SameBatches(cfg: Config, s: State, s': State)
    requires BatchInv(cfg, s) && Untouched(cfg, s, s')
    ensures BatchInv(cfg, s')
  {
    SameFates(s, s');
    SameSizes(cfg, s, s');
    SameChecks(s, s');
    hide BatchOk, FatesOk, SizesOk, ResidueOk, FullOk, ChecksOk;
  }

  lemma SameSizes(cfg: Config, s: State, s': State)
    requires SizesOk(cfg, s) && ResidueOk(cfg, s) && FullOk(cfg, s) && Untouched(cfg, s, s')
    ensures SizesOk(cfg, s') && ResidueOk(cfg, s') && FullOk(cfg, s')
  {
    hide Times;
    forall f | 0 <= f < |s'.checks| ensures FullOrLast(cfg, s'.checks[f]) {
      assert FullOrLast(cfg, s.checks[f]);
    }
  }

  lemma SameFates(s: State, s': State)
    requires FatesOk(s) && BatchOk(s)
    requires |s.submitted| <= |s'.submitted| && s'.submitted[..|s.submitted|] == s.submitted
    requires s'.processed == s.processed && s'.batch == s.batch && s'.flushed == s.flushed
    requires s'.superseded == s.superseded && s'.invalid == s.invalid
    ensures FatesOk(s') && BatchOk(s')
  {
    assert forall m | 0 <= m < |s.submitted| :: s'.submitted[m] == s.submitted[m];
  }

  lemma FlushShape(cfg: Config, s: State, items: nat)
    requires DecideEnabled(s) && Flushes(cfg, s)
    ensures Flushed(s, NextDecide(cfg, s, items), Check(s.processed - 1, s.batch, true, items))
  {
  }

  lemma NoFlushShape(cfg: Config, s: State, items: nat)
    requires DecideEnabled(s) && !Flushes(cfg, s)
    ensures Untouched(cfg, s, NextDecide(cfg, s, items))
  {
  }

  lemma DecideBatches(cfg: Config, s: State, items: nat)
    requires WellFormed(cfg) && BatchInv(cfg, s) && DecideEnabled(s) && |s.submitted| <= cfg.totalApps
    ensures BatchInv(cfg, NextDecide(cfg, s, items))
  {
    if Flushes(cfg, s) {
      FlushShape(cfg, s, items);
      hide BatchInv, NextDecide, Flushed, Flushes;
      FlushAccount(cfg, s, NextDecide(cfg, s, items), Check(s.processed - 1, s.batch, true, items));
    } else {
      NoFlushShape(cfg, s, items);
      hide BatchInv, NextDecide, Untouched;
      SameBatches(cfg, s, NextDecide(cfg, s, items));
    }
  }

  lemma FlushAccount(cfg: Config, s: State, s': State, check: Check)
    requires WellFormed(cfg) && BatchInv(cfg, s) && Flushed(s, s', check)
    requires s.mon.Deciding? && 0 < s.processed <= cfg.totalApps && Flushes(cfg, s)
    ensures BatchInv(cfg, s')
  {
    BatchValues(s);
    FlushBatches(s, s', check);
    FlushSizes(cfg, s, s', check);
    FlushFull(cfg, s, s');
    FlushChecks(s, s', check);
    hide BatchOk, FatesOk, CountsOk, SizesOk, FullOk, ChecksOk, Flushes;
  }

  lemma ReceiveAccount(cfg: Config, s: State)
    requires WellFormed(cfg) && BatchInv(cfg, s) && ReceiveEnabled(s)
    ensures BatchInv(cfg, NextReceive(s))
  {
    ReceiveChecks(s);
    hide BatchOk, FatesOk, CountsOk, SizesOk, ResidueOk, FullOk, ChecksOk, NextReceive;
    ReceiveBatches(s);
    ReceiveFates(s);
    ReceiveCounts(s);
    ReceiveSizes(cfg, s);
  }

  /** Every step keeps the account of submissions. */
  lemma BatchesKept(cfg: Config, s: State, step: Step)
    requires WellFormed(cfg) && BatchInv(cfg, s) && Enabled(cfg, s, step) && |s.submitted| <= cfg.totalApps
    ensures BatchInv(cfg, Next(cfg, s, step))
  {
    hide BatchInv;
    match step
    case Receive => ReceiveAccount(cfg, s);
    case Decide(items) => DecideBatches(cfg, s, items);
    case _ =>
      StepUntouched(cfg, s, step);
      hide Next, Enabled;
      SameBatches(cfg, s, Next(cfg, s, step));
  }

  lemma MainUntouched(cfg: Config, s: State)
    requires MainEnabled(cfg, s)
    ensures Untouched(cfg, s, NextMain(cfg, s))
  {
  }

  lemma TaskUntouched(cfg: Config, s: State, i: nat, reply: Reply)
    requires TaskEnabled(cfg, s, i)
    ensures Untouched(cfg, s, NextTask(cfg, s, i, reply))
  {
    TaskShape(cfg, s, i, reply);
    hide Flushes, NextTask;
  }

  lemma TaskShape(cfg: Config, s: State, i: nat, reply: Reply)
    requires TaskEnabled(cfg, s, i)
    ensures var s' := NextTask(cfg, s, i, reply);
      && s' == s.(pcs := s'.pcs, waits := s'.waits, submitted := s'.submitted, held := s'.held, wg := s'.wg,
                  panicked := s'.panicked)
      && (s'.submitted == s.submitted || (s.pcs[i].Submitting? && s'.submitted == s.submitted + [s.pcs[i].sub]))
  {
  }

  lemma SendUntouched(cfg: Config, s: State, f: nat)
    requires CheckEnabled(s, f) && s.checks[f].left > 0
    ensures Untouched(cfg, s, NextCheckSend(s, f))
  {
  }

  lemma DoneUntouched(cfg: Config, s: State, f: nat)
    requires CheckEnabled(s, f)
    ensures Untouched(cfg, s, NextCheckDone(s, f))
  {
  }

  lemma StepUntouched(cfg: Config, s: State, step: Step)
    requires Enabled(cfg, s, step) && !step.Receive? && !step.Decide?
    ensures Untouched(cfg, s, Next(cfg, s, step))
  {
    hide Untouched, NextMain, NextTask, NextCheckSend, NextCheckDone;
    match step
    case MainStep => MainUntouched(cfg, s);
    case TaskStep(i, reply) => TaskUntouched(cfg, s, i, reply);
    case CheckSend(f) => SendUntouched(cfg, s, f);
    case CheckDone(f) => DoneUntouched(cfg, s, f);
    case _ =>
  }
}
