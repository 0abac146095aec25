/** Which applications a run of the lambda checks, and exactly when it checks all of them. */
module AppBatcherCoverage {
  import opened AppBatcher
  import opened AppBatcherTokens
  import opened AppBatcherBatches
  import opened AppBatcherRun
  import opened AppMonitor
  import opened AppCoverage
  import opened AppBatcherGroups

  /** The performChecks calls of a run, as flushes. */
  function FlushesOf(checks: seq<Check>): seq<Flush> {
    seq(|checks|, f requires 0 <= f < |checks| => Flush(checks[f].pos, checks[f].batch))
  }

  lemma ChecksAreGroups(cfg: Config, s: State)
    requires WellFormed(cfg) && Reached(cfg, s) && s.main.Closed?
    ensures Grouping(s.batch, FlushesOf(s.checks)) == Group(cfg, s.submitted)
    ensures forall m: nat :: Checked(s, m) <==> InFlush(Group(cfg, s.submitted), m)
  {
    GroupsAtReturn(cfg, s);
    hide Reached, Group;
    var g := Group(cfg, s.submitted);
    assert FlushesOf(s.checks) == g.flushes;
    assert forall f | 0 <= f < |s.checks| :: s.checks[f].batch == g.flushes[f].batch;
  }

  /**
   When the run has returned, a submission has been checked exactly when it is valid, a performChecks call came at or
   after it, and no later valid submission of its application came before that call; it has been superseded exactly when
   such a later one did come.
   */
  lemma CheckedAtReturn(cfg: Config, s: State)
    requires WellFormed(cfg) && Reached(cfg, s) && s.main.Closed?
    ensures var flushes := FlushesOf(s.checks);
      forall m: nat ::
        && (Checked(s, m) <==>
              IsValid(s.submitted, m) && GroupClosed(flushes, m) && !IsSuperseded(s.submitted, flushes, m))
        && (m in s.superseded <==> IsSuperseded(s.submitted, flushes, m))
  {
    ChecksAreGroups(cfg, s);
    EverySubmissionAccounted(cfg, s);
    ResidueAtReturn(cfg, s);
    hide Reached, Group, FlushesOf, Checked, InFlush;
    var flushes := FlushesOf(s.checks);
    forall m: nat
      ensures Checked(s, m) <==>
        IsValid(s.submitted, m) && GroupClosed(flushes, m) && !IsSuperseded(s.submitted, flushes, m)
      ensures m in s.superseded <==> IsSuperseded(s.submitted, flushes, m)
    {
      InFlushMeans(cfg, s.submitted, m);
      PendingMeans(cfg, s.submitted, m);
      hide IsSuperseded, GroupClosed;
      OneFate(cfg, s, m);
    }
  }

  /** A valid submission is in exactly one of three places. */
  lemma OneFate(cfg: Config, s: State, m: nat)
    requires WellFormed(cfg) && Reached(cfg, s) && s.main.Closed?
    ensures m in s.superseded <==> IsValid(s.submitted, m) && !Checked(s, m) && m !in s.batch.Values
  {
    EverySubmissionAccounted(cfg, s);
    ResidueAtReturn(cfg, s);
    ReachedInv(cfg, s);
    hide Reached, Checked;
    assert m in Settled(s) <==> m < |s.submitted|;
  }

  /**
   Every valid submission of a run has been checked exactly when no application comes twice in a block of
   `checksPerInvoke` valid submissions, and all pairs have submitted or the valid submissions fill their blocks. Without
   such a clash, what is left is the last, unfilled block.
   */
  lemma AllCheckedAtReturn(cfg: Config, s: State)
    requires WellFormed(cfg) && Reached(cfg, s) && s.main.Closed?
    ensures (forall m: nat | IsValid(s.submitted, m) :: Checked(s, m)) <==>
      && NoClash(cfg, s.submitted)
      && (|s.submitted| == cfg.totalApps || ValidCount(s.submitted) % cfg.checksPerInvoke == 0)
    ensures NoClash(cfg, s.submitted) && |s.submitted| < cfg.totalApps ==>
      |s.batch| == ValidCount(s.submitted) % cfg.checksPerInvoke
  {
    ChecksAreGroups(cfg, s);
    ResidueAtReturn(cfg, s);
    hide Reached, Group, FlushesOf, Checked, InFlush, NoClash;
    AllHandedOverMeans(cfg, s.submitted);
    if NoClash(cfg, s.submitted) && |s.submitted| < cfg.totalApps {
      BatchFollowsBlocks(cfg, s.submitted);
    }
  }
}
