/** In the concurrent lambda batcher the monitor groups exactly as its loop does on the submissions alone. */
module AppBatcherGroups {
  import opened AppBatcher
  import opened AppBatcherTokens
  import opened AppBatcherBatches
  import opened AppBatcherRun
  import opened AppMonitor

  predicate FlushedAs(checks: seq<Check>, flushes: seq<Flush>) {
    |checks| == |flushes| && forall f | 0 <= f < |checks| :: Flush(checks[f].pos, checks[f].batch) == flushes[f]
  }

  ghost predicate GroupsAs(cfg: Config, s: State) {
    && 0 <= Decided(s) && s.processed <= |s.submitted|
    && var g := Group(cfg, s.submitted[..Decided(s)]);
    && FlushedAs(s.checks, g.flushes)
    && s.batch == if s.mon.Deciding? then Put(g.batch, Decided(s), s.submitted[Decided(s)]) else g.batch
  }

  lemma UntouchedGroups(cfg: Config, s: State, s': State)
    requires GroupsAs(cfg, s) && Untouched(cfg, s, s')
    ensures GroupsAs(cfg, s')
  {
    if s'.mon == s.mon {
      assert s'.submitted[..Decided(s')] == s.submitted[..Decided(s)];
    } else {
      var subs := s'.submitted[..s.processed];
      assert subs[..s.processed - 1] == s.submitted[..Decided(s)];
      assert subs[s.processed - 1] == s.submitted[Decided(s)];
    }
  }

  lemma ReceiveGroups(cfg: Config, s: State)
    requires GroupsAs(cfg, s) && ReceiveEnabled(s)
    ensures GroupsAs(cfg, NextReceive(s))
  {
    hide Group;
  }

  lemma FlushGroups(cfg: Config, s: State, s': State, check: Check)
    requires GroupsAs(cfg, s) && s.mon.Deciding? && Flushes(cfg, s) && Flushed(s, s', check)
    ensures GroupsAs(cfg, s')
  {
    var subs := s'.submitted[..s.processed];
    assert subs[..s.processed - 1] == s.submitted[..Decided(s)];
    assert subs[s.processed - 1] == s.submitted[Decided(s)];
  }

  lemma GroupsKept(cfg: Config, s: State, step: Step)
    requires GroupsAs(cfg, s) && Enabled(cfg, s, step)
    ensures GroupsAs(cfg, Next(cfg, s, step))
  {
    hide GroupsAs, Untouched, Flushed, NextDecide, NextReceive;
    match step
    case Receive => ReceiveGroups(cfg, s);
    case Decide(items) =>
      if Flushes(cfg, s) {
        FlushShape(cfg, s, items);
        FlushGroups(cfg, s, NextDecide(cfg, s, items), Check(s.processed - 1, s.batch, true, items));
      } else {
        NoFlushShape(cfg, s, items);
        UntouchedGroups(cfg, s, NextDecide(cfg, s, items));
      }
    case _ =>
      StepUntouched(cfg, s, step);
      hide Next, Enabled;
      UntouchedGroups(cfg, s, Next(cfg, s, step));
  }

  lemma {:induction false} TraceGroups(cfg: Config, s: State, trace: seq<Step>)
    requires GroupsAs(cfg, s) && Possible(cfg, s, trace)
    ensures GroupsAs(cfg, After(cfg, s, trace))
    decreases |trace|
  {
    if trace != [] {
      hide GroupsAs, Next, Enabled;
      GroupsKept(cfg, s, trace[0]);
      TraceGroups(cfg, Next(cfg, s, trace[0]), trace[1..]);
    }
  }

  /**
   Whatever the interleaving, once the run has returned the performChecks calls and the batch left behind are those of
   the monitor's loop on the submissions in the order they were sent.
   */
  lemma GroupsAtReturn(cfg: Config, s: State)
    requires WellFormed(cfg) && Reached(cfg, s) && s.main.Closed?
    ensures FlushedAs(s.checks, Group(cfg, s.submitted).flushes)
    ensures s.batch == Group(cfg, s.submitted).batch
  {
    var trace :| Possible(cfg, Init(cfg), trace) && s == After(cfg, Init(cfg), trace);
    TraceGroups(cfg, Init(cfg), trace);
    ReachedInv(cfg, s);
    ReturnedIsQuiet(cfg, s);
    hide Reached, Inv, Group;
    assert s.submitted[..|s.submitted|] == s.submitted;
  }
}
