/** monitorAppBatch as the loop it is: what it makes of the submissions it receives, one after the other. */
module AppMonitor {
  import opened AppBatcher

  /** A call of performChecks: the position of the submission that set it off, and its batch of positions. */
  datatype Flush = Flush(pos: nat, batch: map<string, nat>)

  datatype Grouping = Grouping(batch: map<string, nat>, flushes: seq<Flush>)

  function Put(batch: map<string, nat>, pos: nat, sub: Submission): map<string, nat> {
    if sub.invalid then batch else batch[sub.appKey := pos]
  }

  function Group(cfg: Config, subs: seq<Submission>): Grouping {
    if subs == [] then Grouping(map[], [])
    else
      var pos := |subs| - 1;
      var before := Group(cfg, subs[..pos]);
      var batch := Put(before.batch, pos, subs[pos]);
      if |subs| < cfg.totalApps && |batch| < cfg.checksPerInvoke then Grouping(batch, before.flushes)
      else Grouping(map[], before.flushes + [Flush(pos, batch)])
  }

  method MonitorAppBatch(cfg: Config, subs: seq<Submission>) returns (batch: map<string, nat>, flushes: seq<Flush>)
    ensures Grouping(batch, flushes) == Group(cfg, subs)
  {
    batch, flushes := map[], [];
    var processedApps := 0;
    while processedApps < |subs|
      invariant processedApps <= |subs|
      invariant Grouping(batch, flushes) == Group(cfg, subs[..processedApps])
    {
      var pos, app := processedApps, subs[processedApps];
      assert subs[..pos + 1][..pos] == subs[..pos];
      if !app.invalid {
        batch := batch[app.appKey := pos];
      }
      processedApps := processedApps + 1;
      var processedAll := processedApps >= cfg.totalApps;
      if !processedAll && |batch| < cfg.checksPerInvoke {
        continue;
      }
      flushes := flushes + [Flush(pos, batch)];
      batch := map[];
    }
    assert subs[..|subs|] == subs;
  }

  /** The submission at `p` is the last valid one with key `k` in `subs[from..to]`. */
  predicate IsLast(subs: seq<Submission>, from: nat, to: nat, k: string, p: nat) {
    && from <= p < to <= |subs| && !subs[p].invalid && subs[p].appKey == k
    && forall q | p < q < to && !subs[q].invalid :: subs[q].appKey != k
  }

  ghost predicate HoldsLast(subs: seq<Submission>, from: nat, to: nat, batch: map<string, nat>) {
    forall k, p: nat :: (k in batch && batch[k] == p) <==> IsLast(subs, from, to, k, p)
  }

  /** Where the group that flush `f` closes begins: right after the flush before it. */
  function Start(flushes: seq<Flush>, f: nat): nat {
    if 0 < f <= |flushes| then flushes[f - 1].pos + 1 else 0
  }

  lemma PutHolds(subs: seq<Submission>, from: nat, batch: map<string, nat>)
    requires |subs| > 0 && from < |subs| && HoldsLast(subs[..|subs| - 1], from, |subs| - 1, batch)
    ensures HoldsLast(subs, from, |subs|, Put(batch, |subs| - 1, subs[|subs| - 1]))
  {
    var pos := |subs| - 1;
    var after := Put(batch, pos, subs[pos]);
    forall k, p: nat ensures (k in after && after[k] == p) <==> IsLast(subs, from, |subs|, k, p) {
      assert (k in batch && batch[k] == p) <==> IsLast(subs[..pos], from, pos, k, p);
      if !subs[pos].invalid && subs[pos].appKey == k {
        assert IsLast(subs, from, |subs|, k, p) <==> p == pos;
      } else {
        OneMore(subs, from, k, p);
      }
    }
  }

  /** A submission that is invalid or of another key changes no last one. */
  lemma OneMore(subs: seq<Submission>, from: nat, k: string, p: nat)
    requires |subs| > 0 && from < |subs|
    requires subs[|subs| - 1].invalid || subs[|subs| - 1].appKey != k
    ensures IsLast(subs, from, |subs|, k, p) <==> IsLast(subs[..|subs| - 1], from, |subs| - 1, k, p)
  {
    var pos := |subs| - 1;
    if IsLast(subs[..pos], from, pos, k, p) {
      forall q | p < q < |subs| && !subs[q].invalid ensures subs[q].appKey != k {
        if q < pos {
          assert subs[..pos][q] == subs[q];
        }
      }
    }
    if IsLast(subs, from, |subs|, k, p) {
      forall q | p < q < pos && !subs[..pos][q].invalid ensures subs[..pos][q].appKey != k {
        assert subs[..pos][q] == subs[q];
      }
    }
  }

  lemma EarlierHolds(subs: seq<Submission>, from: nat, to: nat, batch: map<string, nat>)
    requires |subs| > 0 && to < |subs| && HoldsLast(subs[..|subs| - 1], from, to, batch)
    ensures HoldsLast(subs, from, to, batch)
  {
    var pos := |subs| - 1;
    forall k, p: nat ensures (k in batch && batch[k] == p) <==> IsLast(subs, from, to, k, p) {
      assert (k in batch && batch[k] == p) <==> IsLast(subs[..pos], from, to, k, p);
      assert forall q | 0 <= q < to :: subs[..pos][q] == subs[q];
    }
  }

  function ValidKeys(subs: seq<Submission>, from: nat, to: nat): set<string> {
    set p | from <= p < to && p < |subs| && !subs[p].invalid :: subs[p].appKey
  }

  /**
   With a group that begins at `from`, the submission at `q` is a reason to flush: the batch is full, or it is the
   last.
   */
  predicate Reason(cfg: Config, subs: seq<Submission>, from: nat, q: nat) {
    q + 1 >= cfg.totalApps || |ValidKeys(subs, from, q + 1)| >= cfg.checksPerInvoke
  }

  /** Nothing in `subs[from..to]` has been a reason to flush yet. */
  ghost predicate StaysOpen(cfg: Config, subs: seq<Submission>, from: nat, to: nat) {
    forall q: nat | from <= q < to :: !Reason(cfg, subs, from, q)
  }

  /** Flush `f` follows on the one before it, comes at its first reason, and holds the last ones of its group. */
  ghost predicate FlushOk(cfg: Config, subs: seq<Submission>, flushes: seq<Flush>, f: nat)
    requires f < |flushes|
  {
    var from, pos := Start(flushes, f), flushes[f].pos;
    && from <= pos < |subs|
    && HoldsLast(subs, from, pos + 1, flushes[f].batch)
    && StaysOpen(cfg, subs, from, pos) && Reason(cfg, subs, from, pos)
  }

  /** The groups leave no gap and do not overlap; since the last flush there has been no reason for another. */
  ghost predicate GroupsOk(cfg: Config, subs: seq<Submission>, g: Grouping) {
    var from := Start(g.flushes, |g.flushes|);
    && (forall f: nat | f < |g.flushes| :: FlushOk(cfg, subs, g.flushes, f))
    && from <= |subs| && HoldsLast(subs, from, |subs|, g.batch)
    && StaysOpen(cfg, subs, from, |subs|)
  }

  lemma {:induction false} LastExists(subs: seq<Submission>, from: nat, to: nat, p: nat) returns (last: nat)
    requires from <= p < to <= |subs| && !subs[p].invalid
    ensures IsLast(subs, from, to, subs[p].appKey, last)
    decreases |subs| - p
  {
    if q: nat :| p < q < to && !subs[q].invalid && subs[q].appKey == subs[p].appKey {
      last := LastExists(subs, from, to, q);
    } else {
      last := p;
    }
  }

  /** A batch has one entry for each valid key of its group. */
  lemma KeysHeld(subs: seq<Submission>, from: nat, to: nat, batch: map<string, nat>)
    requires to <= |subs| && HoldsLast(subs, from, to, batch)
    ensures batch.Keys == ValidKeys(subs, from, to) && |batch| == |ValidKeys(subs, from, to)|
  {
    forall k ensures k in batch.Keys <==> k in ValidKeys(subs, from, to) {
      if k in batch.Keys {
        assert IsLast(subs, from, to, k, batch[k]);
      }
      if k in ValidKeys(subs, from, to) {
        var p: nat :| from <= p < to && p < |subs| && !subs[p].invalid && subs[p].appKey == k;
        var last := LastExists(subs, from, to, p);
        assert k in batch;
      }
    }
    assert |batch.Keys| == |batch|;
  }

  lemma ReasonOfPrefix(cfg: Config, subs: seq<Submission>, from: nat, to: nat)
    requires |subs| > 0 && to < |subs|
    ensures forall q: nat | q < to :: Reason(cfg, subs[..|subs| - 1], from, q) <==> Reason(cfg, subs, from, q)
  {
    forall q: nat | q < to ensures Reason(cfg, subs[..|subs| - 1], from, q) <==> Reason(cfg, subs, from, q) {
      assert ValidKeys(subs[..|subs| - 1], from, q + 1) == ValidKeys(subs, from, q + 1);
    }
  }

  lemma EarlierFlush(cfg: Config, subs: seq<Submission>, flushes: seq<Flush>, more: seq<Flush>, f: nat)
    requires |subs| > 0 && f < |flushes| && FlushOk(cfg, subs[..|subs| - 1], flushes, f)
    ensures FlushOk(cfg, subs, flushes + more, f)
  {
    assert Start(flushes + more, f) == Start(flushes, f) && (flushes + more)[f] == flushes[f];
    EarlierHolds(subs, Start(flushes, f), flushes[f].pos + 1, flushes[f].batch);
    ReasonOfPrefix(cfg, subs, Start(flushes, f), flushes[f].pos + 1);
    hide HoldsLast, Start, Reason;
  }

  lemma NewFlush(cfg: Config, subs: seq<Submission>, flushes: seq<Flush>, flush: Flush)
    requires |subs| > 0 && Start(flushes, |flushes|) < |subs| && flush.pos == |subs| - 1
    requires HoldsLast(subs, Start(flushes, |flushes|), |subs|, flush.batch)
    requires StaysOpen(cfg, subs, Start(flushes, |flushes|), |subs| - 1)
    requires Reason(cfg, subs, Start(flushes, |flushes|), |subs| - 1)
    ensures FlushOk(cfg, subs, flushes + [flush], |flushes|)
    ensures Start(flushes + [flush], |flushes| + 1) == |subs|
  {
    hide HoldsLast, StaysOpen, Reason;
    assert (flushes + [flush])[|flushes|] == flush;
    assert Start(flushes + [flush], |flushes|) == Start(flushes, |flushes|);
  }

  /**
   Every performChecks call comes at the first reason for it, and gets, for each key of its group, the last valid
   submission with that key, and no other.
   */
  lemma {:induction false} GroupMeans(cfg: Config, subs: seq<Submission>)
    ensures GroupsOk(cfg, subs, Group(cfg, subs))
  {
    if subs == [] {
      NothingHeld(subs);
      hide HoldsLast;
    } else {
      GroupMeans(cfg, subs[..|subs| - 1]);
      var before, g := Group(cfg, subs[..|subs| - 1]), Group(cfg, subs);
      GroupStep(cfg, subs, before, g, Put(before.batch, |subs| - 1, subs[|subs| - 1]));
    }
  }

  lemma GroupStep(cfg: Config, subs: seq<Submission>, before: Grouping, g: Grouping, batch: map<string, nat>)
    requires |subs| > 0 && GroupsOk(cfg, subs[..|subs| - 1], before)
    requires batch == Put(before.batch, |subs| - 1, subs[|subs| - 1])
    requires g == if |subs| < cfg.totalApps && |batch| < cfg.checksPerInvoke then Grouping(batch, before.flushes)
                  else Grouping(map[], before.flushes + [Flush(|subs| - 1, batch)])
    ensures GroupsOk(cfg, subs, g)
  {
    var pos, from, more := |subs| - 1, Start(before.flushes, |before.flushes|), g.flushes[|before.flushes|..];
    PutHolds(subs, from, before.batch);
    KeysHeld(subs, from, |subs|, batch);
    ReasonOfPrefix(cfg, subs, from, pos);
    assert Reason(cfg, subs, from, pos) <==> more != [];
    assert StaysOpen(cfg, subs, from, pos);
    hide HoldsLast, Put, FlushOk, Start, Reason;
    assert g.flushes == before.flushes + more;
    forall f: nat | f < |before.flushes| ensures FlushOk(cfg, subs, g.flushes, f) {
      EarlierFlush(cfg, subs, before.flushes, more, f);
    }
    if more != [] {
      NewFlush(cfg, subs, before.flushes, Flush(pos, batch));
      NothingHeld(subs);
    }
  }

  /** Two groupings that agree so far agree on the next flush, because each comes at its first reason. */
  lemma SameFlush(cfg: Config, subs: seq<Submission>, g: Grouping, h: Grouping, f: nat)
    requires GroupsOk(cfg, subs, g) && GroupsOk(cfg, subs, h)
    requires f < |g.flushes| && f <= |h.flushes| && g.flushes[..f] == h.flushes[..f]
    ensures f < |h.flushes| && g.flushes[f] == h.flushes[f]
  {
    assert f > 0 ==> g.flushes[f - 1] == g.flushes[..f][f - 1] == h.flushes[f - 1];
    var from := Start(g.flushes, f);
    assert Start(h.flushes, f) == from && FlushOk(cfg, subs, g.flushes, f);
    hide Start, Reason;
    if f < |h.flushes| {
      assert FlushOk(cfg, subs, h.flushes, f);
      SameBatch(subs, from, g.flushes[f].pos + 1, g.flushes[f].batch, h.flushes[f].batch);
    }
  }

  lemma SameBatch(subs: seq<Submission>, from: nat, to: nat, a: map<string, nat>, b: map<string, nat>)
    requires HoldsLast(subs, from, to, a) && HoldsLast(subs, from, to, b)
    ensures a == b
  {
    forall k ensures k in a <==> k in b {
      assert k in a ==> IsLast(subs, from, to, k, a[k]);
      assert k in b ==> IsLast(subs, from, to, k, b[k]);
    }
    forall k | k in a ensures a[k] == b[k] {
      assert IsLast(subs, from, to, k, a[k]);
    }
  }

  lemma {:induction false} SameFlushes(cfg: Config, subs: seq<Submission>, g: Grouping, h: Grouping, f: nat)
    requires GroupsOk(cfg, subs, g) && GroupsOk(cfg, subs, h) && f <= |g.flushes|
    ensures f <= |h.flushes| && g.flushes[..f] == h.flushes[..f]
  {
    if f > 0 {
      SameFlushes(cfg, subs, g, h, f - 1);
      SameFlush(cfg, subs, g, h, f - 1);
      assert g.flushes[..f] == g.flushes[..f - 1] + [g.flushes[f - 1]];
      assert h.flushes[..f] == h.flushes[..f - 1] + [h.flushes[f - 1]];
    }
  }

  /** That meaning leaves no choice: only the loop's grouping has it. */
  lemma GroupUnique(cfg: Config, subs: seq<Submission>, g: Grouping)
    ensures GroupsOk(cfg, subs, g) <==> g == Group(cfg, subs)
  {
    var h := Group(cfg, subs);
    GroupMeans(cfg, subs);
    if GroupsOk(cfg, subs, g) {
      SameFlushes(cfg, subs, g, h, |g.flushes|);
      SameFlushes(cfg, subs, h, g, |h.flushes|);
      assert g.flushes == g.flushes[..|g.flushes|] && h.flushes == h.flushes[..|h.flushes|];
      SameBatch(subs, Start(g.flushes, |g.flushes|), |subs|, g.batch, h.batch);
    }
  }

  lemma NothingHeld(subs: seq<Submission>)
    ensures HoldsLast(subs, |subs|, |subs|, map[])
  {
    assert forall k, p: nat :: !IsLast(subs, |subs|, |subs|, k, p);
  }
}
