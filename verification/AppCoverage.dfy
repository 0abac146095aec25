/** Which submissions the monitor's grouping hands to performChecks, and exactly when it hands over all of them. */
module AppCoverage {
  import opened Arithmetic
  import opened AppBatcher
  import opened AppMonitor

  predicate IsValid(subs: seq<Submission>, m: int) {
    0 <= m < |subs| && !subs[m].invalid
  }

  ghost predicate InFlush(g: Grouping, m: nat) {
    exists f :: 0 <= f < |g.flushes| && m in g.flushes[f].batch.Values
  }

  /** No performChecks call comes after `m` and before `n`. */
  ghost predicate SameGroup(flushes: seq<Flush>, m: int, n: int) {
    forall f | 0 <= f < |flushes| :: !(m <= flushes[f].pos < n)
  }

  /** `n` takes the place of `m` in the batch. */
  ghost predicate Supersedes(subs: seq<Submission>, flushes: seq<Flush>, n: int, m: int) {
    m < n && IsValid(subs, m) && IsValid(subs, n) && subs[n].appKey == subs[m].appKey && SameGroup(flushes, m, n)
  }

  ghost predicate IsSuperseded(subs: seq<Submission>, flushes: seq<Flush>, m: int) {
    exists n :: Supersedes(subs, flushes, n, m)
  }

  ghost predicate GroupClosed(flushes: seq<Flush>, m: int) {
    exists f :: 0 <= f < |flushes| && m <= flushes[f].pos
  }

  lemma {:induction false} PositionsRise(cfg: Config, subs: seq<Submission>, g: Grouping, e: nat, f: nat)
    requires GroupsOk(cfg, subs, g) && e < f < |g.flushes|
    ensures g.flushes[e].pos < g.flushes[f].pos
  {
    hide HoldsLast, StaysOpen, Reason;
    assert FlushOk(cfg, subs, g.flushes, f);
    if e + 1 < f {
      PositionsRise(cfg, subs, g, e, f - 1);
    }
  }

  /** Being in the batch of flush `f` is being the last valid one of its key in that group. */
  lemma InFlushAt(cfg: Config, subs: seq<Submission>, g: Grouping, f: nat, m: nat)
    requires GroupsOk(cfg, subs, g) && f < |g.flushes|
    ensures m in g.flushes[f].batch.Values <==>
      && IsValid(subs, m) && Start(g.flushes, f) <= m <= g.flushes[f].pos
      && !IsSuperseded(subs, g.flushes, m)
  {
    var from, pos, batch := Start(g.flushes, f), g.flushes[f].pos, g.flushes[f].batch;
    assert FlushOk(cfg, subs, g.flushes, f);
    ValueIsLast(subs, from, pos + 1, batch, m);
    if IsValid(subs, m) && from <= m <= pos {
      forall n ensures Supersedes(subs, g.flushes, n, m) <==>
        m < n <= pos && IsValid(subs, n) && subs[n].appKey == subs[m].appKey
      {
        if m < n {
          InGroup(cfg, subs, g, f, m, n);
        }
      }
    }
    hide GroupsOk, FlushOk, HoldsLast;
  }

  lemma ValueIsLast(subs: seq<Submission>, from: nat, to: nat, batch: map<string, nat>, m: nat)
    requires HoldsLast(subs, from, to, batch)
    ensures m in batch.Values <==> m < |subs| && IsLast(subs, from, to, subs[m].appKey, m)
  {
    if m in batch.Values {
      var k :| k in batch && batch[k] == m;
      assert IsLast(subs, from, to, k, m);
    }
  }

  lemma InGroup(cfg: Config, subs: seq<Submission>, g: Grouping, f: nat, m: nat, n: int)
    requires GroupsOk(cfg, subs, g) && f < |g.flushes| && Start(g.flushes, f) <= m <= g.flushes[f].pos && m < n
    ensures SameGroup(g.flushes, m, n) <==> n <= g.flushes[f].pos
  {
    forall e | 0 <= e < |g.flushes| && e != f ensures g.flushes[e].pos < m || g.flushes[f].pos < g.flushes[e].pos {
      if e > f {
        PositionsRise(cfg, subs, g, f, e);
      } else if e + 1 < f {
        PositionsRise(cfg, subs, g, e, f - 1);
      }
    }
    hide GroupsOk;
  }

  /** Every position is in the group of some flush, or after all of them. */
  lemma {:induction false} GroupOf(cfg: Config, subs: seq<Submission>, g: Grouping, m: nat, f: nat) returns (e: nat)
    requires GroupsOk(cfg, subs, g) && f < |g.flushes| && m <= g.flushes[f].pos
    ensures e <= f && Start(g.flushes, e) <= m <= g.flushes[e].pos
  {
    if f > 0 && m <= g.flushes[f - 1].pos {
      e := GroupOf(cfg, subs, g, m, f - 1);
    } else {
      e := f;
    }
  }

  /**
   A submission is handed to performChecks exactly when it is valid, its group has been closed by a flush, and no later
   valid submission of its key lies in that group.
   */
  lemma InFlushMeans(cfg: Config, subs: seq<Submission>, m: nat)
    ensures var g := Group(cfg, subs);
      InFlush(g, m) <==> IsValid(subs, m) && GroupClosed(g.flushes, m) && !IsSuperseded(subs, g.flushes, m)
  {
    var g := Group(cfg, subs);
    GroupMeans(cfg, subs);
    hide Group, GroupsOk, IsSuperseded;
    if f: nat :| f < |g.flushes| && m in g.flushes[f].batch.Values {
      InFlushAt(cfg, subs, g, f, m);
    }
    if f: nat :| f < |g.flushes| && m <= g.flushes[f].pos {
      var e := GroupOf(cfg, subs, g, m, f);
      InFlushAt(cfg, subs, g, e, m);
    }
  }

  /** A submission waits in the batch exactly when it is valid, its group is open, and nothing has superseded it. */
  lemma PendingMeans(cfg: Config, subs: seq<Submission>, m: nat)
    ensures var g := Group(cfg, subs);
      m in g.batch.Values <==> IsValid(subs, m) && !GroupClosed(g.flushes, m) && !IsSuperseded(subs, g.flushes, m)
  {
    var g := Group(cfg, subs);
    GroupMeans(cfg, subs);
    var from := Start(g.flushes, |g.flushes|);
    ValueIsLast(subs, from, |subs|, g.batch, m);
    AfterAll(cfg, subs, g, m);
    if IsValid(subs, m) && from <= m {
      forall n ensures Supersedes(subs, g.flushes, n, m) <==>
        m < n && IsValid(subs, n) && subs[n].appKey == subs[m].appKey
      {
        assert forall f | 0 <= f < |g.flushes| :: g.flushes[f].pos < m;
      }
    }
    hide GroupsOk, Group, HoldsLast;
  }

  lemma AfterAll(cfg: Config, subs: seq<Submission>, g: Grouping, m: nat)
    requires GroupsOk(cfg, subs, g)
    ensures Start(g.flushes, |g.flushes|) <= m <==> !GroupClosed(g.flushes, m)
  {
    if |g.flushes| > 0 {
      var last := |g.flushes| - 1;
      forall f: nat | f < last ensures g.flushes[f].pos < g.flushes[last].pos {
        PositionsRise(cfg, subs, g, f, last);
      }
    }
    hide GroupsOk;
  }

  function ValidCount(subs: seq<Submission>): nat {
    if subs == [] then 0 else ValidCount(subs[..|subs| - 1]) + if subs[|subs| - 1].invalid then 0 else 1
  }

  /** Which block of `checksPerInvoke` consecutive valid submissions position `m` is in. */
  function Block(cfg: Config, subs: seq<Submission>, m: nat): nat
    requires cfg.checksPerInvoke >= 1 && m <= |subs|
  {
    ValidCount(subs[..m]) / cfg.checksPerInvoke
  }

  /** Two valid submissions of one application in the same block. */
  predicate Clash(cfg: Config, subs: seq<Submission>, m: int, n: int)
    requires cfg.checksPerInvoke >= 1
  {
    && m < n && IsValid(subs, m) && IsValid(subs, n) && subs[m].appKey == subs[n].appKey
    && Block(cfg, subs, m) == Block(cfg, subs, n)
  }

  ghost predicate NoClash(cfg: Config, subs: seq<Submission>)
    requires cfg.checksPerInvoke >= 1
  {
    forall m, n :: !Clash(cfg, subs, m, n)
  }

  /** As long as no application comes twice in a block, the batch is the current block. */
  ghost predicate BatchIsBlock(cfg: Config, subs: seq<Submission>)
    requires cfg.checksPerInvoke >= 1
  {
    var g := Group(cfg, subs);
    && |g.batch| == ValidCount(subs) % cfg.checksPerInvoke
    && forall m: nat | IsValid(subs, m) ::
         m in g.batch.Values <==> Block(cfg, subs, m) == ValidCount(subs) / cfg.checksPerInvoke
  }

  lemma {:induction false} CountGrows(subs: seq<Submission>, m: nat, n: nat)
    requires m <= n <= |subs|
    ensures ValidCount(subs[..m]) <= ValidCount(subs[..n])
  {
    if m < n {
      CountGrows(subs, m, n - 1);
      assert subs[..n][..n - 1] == subs[..n - 1];
    }
  }

  lemma BlockOfPrefix(cfg: Config, subs: seq<Submission>, n: nat, m: nat)
    requires cfg.checksPerInvoke >= 1 && m <= n <= |subs|
    ensures Block(cfg, subs[..n], m) == Block(cfg, subs, m)
  {
    assert subs[..n][..m] == subs[..m];
  }

  lemma NoClashOfPrefix(cfg: Config, subs: seq<Submission>, n: nat)
    requires cfg.checksPerInvoke >= 1 && n <= |subs| && NoClash(cfg, subs)
    ensures NoClash(cfg, subs[..n])
  {
    forall a, b ensures !Clash(cfg, subs[..n], a, b) {
      if a < b && IsValid(subs[..n], a) && IsValid(subs[..n], b) {
        BlockOfPrefix(cfg, subs, n, a);
        BlockOfPrefix(cfg, subs, n, b);
        assert !Clash(cfg, subs, a, b);
      }
    }
  }

  lemma HeldUnderKey(cfg: Config, subs: seq<Submission>, k: string)
    requires k in Group(cfg, subs).batch
    ensures var g := Group(cfg, subs);
      g.batch[k] in g.batch.Values && IsValid(subs, g.batch[k]) && subs[g.batch[k]].appKey == k
  {
    var g := Group(cfg, subs);
    GroupMeans(cfg, subs);
    assert IsLast(subs, Start(g.flushes, |g.flushes|), |subs|, k, g.batch[k]);
  }

  /** The newest submission's key is not in the batch yet. */
  lemma FreshKey(cfg: Config, subs: seq<Submission>)
    requires cfg.checksPerInvoke >= 1 && subs != [] && NoClash(cfg, subs) && !subs[|subs| - 1].invalid
    requires BatchIsBlock(cfg, subs[..|subs| - 1])
    ensures subs[|subs| - 1].appKey !in Group(cfg, subs[..|subs| - 1]).batch
  {
    var n := |subs| - 1;
    var k := subs[n].appKey;
    if k in Group(cfg, subs[..n]).batch {
      HeldUnderKey(cfg, subs[..n], k);
      var m := Group(cfg, subs[..n]).batch[k];
      BlockOfPrefix(cfg, subs, n, m);
      assert Clash(cfg, subs, m, n);
    }
  }

  /** Nothing valid so far is in the block after the last full one. */
  lemma NextBlockEmpty(cfg: Config, subs: seq<Submission>, m: nat)
    requires cfg.checksPerInvoke >= 1 && ValidCount(subs) % cfg.checksPerInvoke == 0 && IsValid(subs, m)
    ensures Block(cfg, subs, m) < ValidCount(subs) / cfg.checksPerInvoke
  {
    CountGrows(subs, m + 1, |subs|);
    assert subs[..m + 1][..m] == subs[..m] && subs[..|subs|] == subs;
    var before, all, size := ValidCount(subs[..m]), ValidCount(subs), cfg.checksPerInvoke;
    hide ValidCount;
    QuotientGrows(before, all - 1, size);
    OneFurther(all - 1, size);
  }

  lemma {:induction false} BatchFollowsBlocks(cfg: Config, subs: seq<Submission>)
    requires cfg.checksPerInvoke >= 1 && |subs| < cfg.totalApps && NoClash(cfg, subs)
    ensures BatchIsBlock(cfg, subs)
  {
    if subs != [] {
      var n := |subs| - 1;
      NoClashOfPrefix(cfg, subs, n);
      BatchFollowsBlocks(cfg, subs[..n]);
      if subs[n].invalid {
        BlockStays(cfg, subs);
      } else {
        FreshKey(cfg, subs);
        BlockFills(cfg, subs);
      }
    }
  }

  lemma BlockStays(cfg: Config, subs: seq<Submission>)
    requires cfg.checksPerInvoke >= 1 && 0 < |subs| < cfg.totalApps && subs[|subs| - 1].invalid
    requires BatchIsBlock(cfg, subs[..|subs| - 1])
    ensures BatchIsBlock(cfg, subs)
  {
    var n := |subs| - 1;
    var before := Group(cfg, subs[..n]);
    assert Group(cfg, subs) == before;
    forall m: nat | IsValid(subs, m)
      ensures m in before.batch.Values <==> Block(cfg, subs, m) == ValidCount(subs) / cfg.checksPerInvoke
    {
      assert IsValid(subs[..n], m);
      BlockOfPrefix(cfg, subs, n, m);
    }
  }

  lemma GroupAfterValid(cfg: Config, subs: seq<Submission>)
    requires 0 < |subs| < cfg.totalApps && !subs[|subs| - 1].invalid
    ensures var batch := Group(cfg, subs[..|subs| - 1]).batch[subs[|subs| - 1].appKey := |subs| - 1];
      Group(cfg, subs).batch == if |batch| < cfg.checksPerInvoke then batch else map[]
    ensures ValidCount(subs) == ValidCount(subs[..|subs| - 1]) + 1
  {
  }

  lemma BlockFills(cfg: Config, subs: seq<Submission>)
    requires cfg.checksPerInvoke >= 1 && 0 < |subs| < cfg.totalApps && !subs[|subs| - 1].invalid
    requires BatchIsBlock(cfg, subs[..|subs| - 1])
    requires subs[|subs| - 1].appKey !in Group(cfg, subs[..|subs| - 1]).batch
    ensures BatchIsBlock(cfg, subs)
  {
    var n := |subs| - 1;
    var before := Group(cfg, subs[..n]).batch;
    GroupAfterValid(cfg, subs);
    OneFurther(ValidCount(subs[..n]), cfg.checksPerInvoke);
    hide Group, Block, ValidCount;
    NewEntry(before, subs[n].appKey, n);
    if |before| + 1 >= cfg.checksPerInvoke {
      NothingInNextBlock(cfg, subs);
    } else {
      BlockGrows(cfg, subs, before);
    }
  }

  lemma NothingInNextBlock(cfg: Config, subs: seq<Submission>)
    requires cfg.checksPerInvoke >= 1 && ValidCount(subs) % cfg.checksPerInvoke == 0
    ensures forall m: nat | IsValid(subs, m) :: Block(cfg, subs, m) != ValidCount(subs) / cfg.checksPerInvoke
  {
    hide Block, ValidCount;
    forall m: nat | IsValid(subs, m) ensures Block(cfg, subs, m) != ValidCount(subs) / cfg.checksPerInvoke {
      NextBlockEmpty(cfg, subs, m);
    }
  }

  lemma BlockGrows(cfg: Config, subs: seq<Submission>, before: map<string, nat>)
    requires cfg.checksPerInvoke >= 1 && subs != []
    requires var n := |subs| - 1;
      && ValidCount(subs) / cfg.checksPerInvoke == ValidCount(subs[..n]) / cfg.checksPerInvoke
      && forall m: nat | IsValid(subs[..n], m) ::
           m in before.Values <==> Block(cfg, subs[..n], m) == ValidCount(subs[..n]) / cfg.checksPerInvoke
    ensures var n := |subs| - 1;
      forall m: nat | IsValid(subs, m) ::
        m in before.Values + {n} <==> Block(cfg, subs, m) == ValidCount(subs) / cfg.checksPerInvoke
  {
    var n := |subs| - 1;
    forall m: nat | IsValid(subs, m)
      ensures m in before.Values + {n} <==> Block(cfg, subs, m) == ValidCount(subs) / cfg.checksPerInvoke
    {
      if m < n {
        assert IsValid(subs[..n], m);
        BlockOfPrefix(cfg, subs, n, m);
      }
    }
  }

  lemma NewEntry(batch: map<string, nat>, k: string, n: nat)
    requires k !in batch
    ensures |batch[k := n]| == |batch| + 1 && batch[k := n].Values == batch.Values + {n}
  {
    var after := batch[k := n];
    assert after.Keys == batch.Keys + {k} && |after.Keys| == |after| && |batch.Keys| == |batch|;
    forall v ensures v in after.Values <==> v in batch.Values + {n} {
      if v in batch.Values {
        var l :| l in batch && batch[l] == v;
        assert l in after && after[l] == v;
      }
      assert k in after && after[k] == n;
    }
  }

  lemma {:induction false} FlushesOfPrefix(cfg: Config, subs: seq<Submission>, n: nat)
    requires n <= |subs|
    ensures Group(cfg, subs[..n]).flushes <= Group(cfg, subs).flushes
    ensures forall f | |Group(cfg, subs[..n]).flushes| <= f < |Group(cfg, subs).flushes| ::
      Group(cfg, subs).flushes[f].pos >= n
  {
    if n == |subs| {
      assert subs[..n] == subs;
    } else {
      var p := subs[..|subs| - 1];
      FlushesOfPrefix(cfg, p, n);
      assert p[..n] == subs[..n];
    }
  }

  /** With blocks free of clashes so far, the newest submission supersedes what it clashes with, and nothing else. */
  lemma SupersedesInBlock(cfg: Config, subs: seq<Submission>, m: nat, n: nat)
    requires cfg.checksPerInvoke >= 1 && |subs| <= cfg.totalApps && m < n < |subs|
    requires NoClash(cfg, subs[..n]) && !IsSuperseded(subs[..n], Group(cfg, subs[..n]).flushes, m)
    ensures Supersedes(subs, Group(cfg, subs).flushes, n, m) <==> Clash(cfg, subs, m, n)
  {
    var p, flushes := subs[..n], Group(cfg, subs).flushes;
    BatchFollowsBlocks(cfg, p);
    PendingMeans(cfg, p, m);
    FlushesOfPrefix(cfg, subs, n);
    BlockOfPrefix(cfg, subs, n, m);
    assert IsValid(p, m) <==> IsValid(subs, m);
    PositionsBelow(cfg, p);
    assert SameGroup(flushes, m, n) <==> !GroupClosed(Group(cfg, p).flushes, m);
    hide Group, SameGroup, GroupClosed, IsSuperseded, NoClash;
  }

  lemma PositionsBelow(cfg: Config, subs: seq<Submission>)
    ensures forall f | 0 <= f < |Group(cfg, subs).flushes| :: Group(cfg, subs).flushes[f].pos < |subs|
  {
    GroupMeans(cfg, subs);
    var g := Group(cfg, subs);
    hide Group, HoldsLast, StaysOpen, Reason;
    forall f: nat | f < |g.flushes| ensures g.flushes[f].pos < |subs| {
      assert FlushOk(cfg, subs, g.flushes, f);
    }
  }

  lemma SupersedesInPrefix(subs: seq<Submission>, before: seq<Flush>, flushes: seq<Flush>, q: int, m: int)
    requires subs != [] && q < |subs| - 1 && before <= flushes
    requires forall f | |before| <= f < |flushes| :: flushes[f].pos >= |subs| - 1
    ensures Supersedes(subs, flushes, q, m) <==> Supersedes(subs[..|subs| - 1], before, q, m)
  {
    assert forall f | 0 <= f < |before| :: flushes[f] == before[f];
    assert SameGroup(flushes, m, q) <==> SameGroup(before, m, q);
    hide SameGroup;
  }

  /** Submission `m` has been superseded in the grouping of `subs`. */
  ghost predicate Lost(cfg: Config, subs: seq<Submission>, m: nat) {
    IsSuperseded(subs, Group(cfg, subs).flushes, m)
  }

  ghost predicate NoneLost(cfg: Config, subs: seq<Submission>) {
    forall m: nat :: !Lost(cfg, subs, m)
  }

  /** What is lost has been lost in a prefix, or to the newest submission. */
  lemma LostOfPrefix(cfg: Config, subs: seq<Submission>, prefix: seq<Submission>, m: nat)
    requires subs != [] && prefix == subs[..|subs| - 1]
    ensures Lost(cfg, subs, m) <==> Lost(cfg, prefix, m) || Supersedes(subs, Group(cfg, subs).flushes, |subs| - 1, m)
  {
    var n := |subs| - 1;
    var flushes, before := Group(cfg, subs).flushes, Group(cfg, prefix).flushes;
    FlushesOfPrefix(cfg, subs, n);
    hide Group;
    forall q | q < n ensures Supersedes(subs, flushes, q, m) <==> Supersedes(prefix, before, q, m) {
      SupersedesInPrefix(subs, before, flushes, q, m);
    }
    assert forall q | q > n :: !Supersedes(subs, flushes, q, m);
    assert forall q | q >= n :: !Supersedes(prefix, before, q, m);
    hide Supersedes;
  }

  /** With no clash before, the newest submission clashes with what it supersedes, and with nothing else. */
  lemma NewestSupersedes(cfg: Config, subs: seq<Submission>, prefix: seq<Submission>, m: int)
    requires cfg.checksPerInvoke >= 1 && 0 < |subs| <= cfg.totalApps && prefix == subs[..|subs| - 1]
    requires NoClash(cfg, prefix) && NoneLost(cfg, prefix)
    ensures Clash(cfg, subs, m, |subs| - 1) <==> m >= 0 && Supersedes(subs, Group(cfg, subs).flushes, |subs| - 1, m)
  {
    hide Group, NoClash;
    if 0 <= m < |subs| - 1 {
      assert !Lost(cfg, prefix, m);
      SupersedesInBlock(cfg, subs, m, |subs| - 1);
    }
  }

  /** No submission is lost exactly when no application comes twice in a block. */
  lemma {:induction false} NoneLostMeans(cfg: Config, subs: seq<Submission>)
    requires cfg.checksPerInvoke >= 1 && |subs| <= cfg.totalApps
    ensures NoClash(cfg, subs) <==> NoneLost(cfg, subs)
  {
    if subs == [] {
      assert forall m, n :: !Clash(cfg, subs, m, n);
    } else {
      var n, prefix, flushes := |subs| - 1, subs[..|subs| - 1], Group(cfg, subs).flushes;
      NoneLostMeans(cfg, prefix);
      ClashOfPrefix(cfg, subs);
      hide Group, Lost, Clash, Supersedes, NoClash;
      forall m: nat ensures Lost(cfg, subs, m) <==> Lost(cfg, prefix, m) || Supersedes(subs, flushes, n, m) {
        LostOfPrefix(cfg, subs, prefix, m);
      }
      if NoClash(cfg, prefix) {
        forall m ensures Clash(cfg, subs, m, n) <==> m >= 0 && Supersedes(subs, flushes, n, m) {
          NewestSupersedes(cfg, subs, prefix, m);
        }
      }
    }
  }

  lemma ClashOfPrefix(cfg: Config, subs: seq<Submission>)
    requires cfg.checksPerInvoke >= 1 && subs != []
    ensures var n := |subs| - 1; NoClash(cfg, subs) <==> NoClash(cfg, subs[..n]) && forall m :: !Clash(cfg, subs, m, n)
  {
    var n := |subs| - 1;
    forall a, b | b != n ensures Clash(cfg, subs, a, b) <==> Clash(cfg, subs[..n], a, b) {
      if a < b && IsValid(subs, a) && IsValid(subs, b) {
        BlockOfPrefix(cfg, subs, n, a);
        BlockOfPrefix(cfg, subs, n, b);
      }
    }
    assert forall a :: !Clash(cfg, subs[..n], a, n);
    hide Clash;
  }

  ghost predicate AllHandedOver(cfg: Config, subs: seq<Submission>) {
    forall m: nat | IsValid(subs, m) :: InFlush(Group(cfg, subs), m)
  }

  /**
   Every valid submission is handed to performChecks exactly when no application comes twice in a block of
   `checksPerInvoke` valid submissions, and all pairs have submitted or the valid submissions fill their blocks.
   */
  lemma AllHandedOverMeans(cfg: Config, subs: seq<Submission>)
    requires cfg.checksPerInvoke >= 1 && |subs| <= cfg.totalApps
    ensures AllHandedOver(cfg, subs) <==>
      && NoClash(cfg, subs)
      && (|subs| == cfg.totalApps || ValidCount(subs) % cfg.checksPerInvoke == 0)
  {
    NoneLostMeans(cfg, subs);
    AllOrPending(cfg, subs);
    if NoClash(cfg, subs) && |subs| < cfg.totalApps {
      BatchFollowsBlocks(cfg, subs);
    }
    if |subs| == cfg.totalApps {
      assert Group(cfg, subs).batch == map[];
    }
    hide AllHandedOver, Group, NoneLost, NoClash;
  }

  lemma AllOrPending(cfg: Config, subs: seq<Submission>)
    ensures AllHandedOver(cfg, subs) <==> Group(cfg, subs).batch == map[] && NoneLost(cfg, subs)
  {
    var g := Group(cfg, subs);
    forall m: nat
      ensures InFlush(g, m) <==> IsValid(subs, m) && GroupClosed(g.flushes, m) && !Lost(cfg, subs, m)
      ensures m in g.batch.Values <==> IsValid(subs, m) && !GroupClosed(g.flushes, m) && !Lost(cfg, subs, m)
      ensures Lost(cfg, subs, m) ==> IsValid(subs, m)
    {
      InFlushMeans(cfg, subs, m);
      PendingMeans(cfg, subs, m);
    }
    hide Group, InFlush, GroupClosed, Lost;
    if g.batch != map[] {
      var k :| k in g.batch;
      assert g.batch[k] in g.batch.Values;
    }
  }
}
