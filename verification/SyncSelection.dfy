/** What the sync check accepts, in terms of the reported heights alone. */
module SyncSelection {
  import opened SyncCheck

  /** Some node answered, and every node that answered is strictly ahead of the altruist. */
  ghost predicate AllValidAhead(logs: seq<NodeLog>, altruist: int) {
    && (exists i :: 0 <= i < |logs| && logs[i].height > 0)
    && (forall i | 0 <= i < |logs| && logs[i].height > 0 :: logs[i].height > altruist)
  }

  lemma {:induction false} CountsCompare(logs: seq<NodeLog>, altruist: int)
    requires altruist >= 0
    ensures var valid, ahead := |Select(logs, Valid)|, |Select(logs, (n: NodeLog) => n.height > altruist)|;
      && ahead <= valid
      && (ahead == valid <==> forall i | 0 <= i < |logs| && logs[i].height > 0 :: logs[i].height > altruist)
      && (valid > 0 <==> exists i :: 0 <= i < |logs| && logs[i].height > 0)
  {
    if logs != [] {
      var n := |logs| - 1;
      CountsCompare(logs[..n], altruist);
      assert forall i | 0 <= i < n :: logs[..n][i] == logs[i];
      if logs[n].height > 0 {
        assert exists i :: 0 <= i < |logs| && logs[i].height > 0;
      }
    }
  }

  /** The coded ratio is 1 when all valid nodes are ahead, and 0 otherwise: nothing in between. */
  lemma RatioIsAllOrNothing(logs: seq<NodeLog>, altruist: int)
    requires altruist >= 0
    ensures AheadRatio(logs, altruist) == if AllValidAhead(logs, altruist) then 1 else 0
  {
    CountsCompare(logs, altruist);
    var valid, ahead := |Select(logs, Valid)|, |Select(logs, (n: NodeLog) => n.height > altruist)|;
    SmallRatio(ahead, valid);
  }

  lemma SmallRatio(ahead: nat, valid: nat)
    requires ahead <= valid
    ensures ahead / (if valid <= 0 then 1 else valid) == if valid > 0 && ahead == valid then 1 else 0
  {
    if valid > 0 && ahead < valid {
      assert ahead / valid == 0;
    }
  }

  /** The altruist is distrusted exactly when some node is valid and all valid nodes are strictly ahead of it. */
  lemma TrustMeans(logs: seq<NodeLog>, altruist: int, allowance: int, threshold: real)
    requires logs != [] && altruist >= 0 && 0.0 < threshold <= 1.0
    ensures Judge(logs, altruist, allowance, threshold).trusted <==> !AllValidAhead(logs, altruist)
  {
    RatioIsAllOrNothing(logs, altruist);
  }

  ghost predicate Accepted(logs: seq<NodeLog>, altruist: int, allowance: int, threshold: real, height: int)
    requires logs != []
  {
    Passes(Judge(logs, altruist, allowance, threshold), allowance, height)
  }

  /** The whole selection as one window on the heights. */
  lemma AcceptedIsWindow(logs: seq<NodeLog>, altruist: int, allowance: int, threshold: real, height: int)
    requires logs != [] && altruist >= 0 && allowance >= 0 && 0.0 < threshold <= 1.0
    ensures var top := Highest(logs);
      Accepted(logs, altruist, allowance, threshold, height) <==>
        && height > 0
        && if AllValidAhead(logs, altruist) then top - allowance <= height <= top + allowance
           else
             var floor := if altruist < top <= altruist + allowance then top else altruist;
             floor - allowance <= height <= altruist + allowance
  {
    TrustMeans(logs, altruist, allowance, threshold);
  }

  /** A node at exactly the altruist's positive height is accepted, whatever the others report. */
  lemma AltruistHeightAccepted(logs: seq<NodeLog>, altruist: int, allowance: int, threshold: real, n: NodeLog)
    requires altruist > 0 && allowance >= 0 && 0.0 < threshold <= 1.0
    requires n in logs && n.height == altruist
    ensures Accepted(logs, altruist, allowance, threshold, n.height)
  {
    AcceptedIsWindow(logs, altruist, allowance, threshold, n.height);
    var i :| 0 <= i < |logs| && logs[i] == n;
    assert logs[i].height > 0 && logs[i].height <= altruist;
  }

  /** With a trusted altruist every accepted height is within the allowance of it. */
  lemma TrustedWindow(logs: seq<NodeLog>, altruist: int, allowance: int, threshold: real, height: int)
    requires logs != [] && altruist >= 0 && allowance >= 0 && 0.0 < threshold <= 1.0
    requires !AllValidAhead(logs, altruist) && Accepted(logs, altruist, allowance, threshold, height)
    ensures altruist - allowance <= height <= altruist + allowance
  {
    AcceptedIsWindow(logs, altruist, allowance, threshold, height);
  }

  /**
   Accepted nodes are close together: within twice the allowance, and within the allowance unless the altruist is
   trusted while the top node is too far ahead of it.
   */
  lemma AcceptedAreClose(logs: seq<NodeLog>, altruist: int, allowance: int, threshold: real, m: NodeLog, n: NodeLog)
    requires altruist >= 0 && allowance >= 0 && 0.0 < threshold <= 1.0 && m in logs && n in logs
    requires Accepted(logs, altruist, allowance, threshold, m.height)
    requires Accepted(logs, altruist, allowance, threshold, n.height)
    ensures m.height - n.height <= 2 * allowance
    ensures AllValidAhead(logs, altruist) || Highest(logs) <= altruist + allowance ==> m.height - n.height <= allowance
  {
    AcceptedIsWindow(logs, altruist, allowance, threshold, m.height);
    AcceptedIsWindow(logs, altruist, allowance, threshold, n.height);
    var i :| 0 <= i < |logs| && logs[i] == m;
    assert m.height <= Highest(logs);
  }

  /** Distrust falls back on the nodes: exactly the valid ones within the allowance of the top, which is one of them. */
  lemma DistrustFollowsNodes(logs: seq<NodeLog>, altruist: int, allowance: int, threshold: real)
    requires logs != [] && altruist >= 0 && allowance >= 0 && 0.0 < threshold <= 1.0 && AllValidAhead(logs, altruist)
    ensures forall n | n in logs ::
      Accepted(logs, altruist, allowance, threshold, n.height) <==>
          n.height > 0 && n.height >= Highest(logs) - allowance
    ensures exists n :: n in logs && Accepted(logs, altruist, allowance, threshold, n.height)
  {
    forall n | n in logs ensures
      Accepted(logs, altruist, allowance, threshold, n.height) <==>
          n.height > 0 && n.height >= Highest(logs) - allowance
    {
      AcceptedIsWindow(logs, altruist, allowance, threshold, n.height);
      var i :| 0 <= i < |logs| && logs[i] == n;
      assert n.height <= Highest(logs);
    }
    var i :| 0 <= i < |logs| && logs[i].height == Highest(logs);
    var w :| 0 <= w < |logs| && logs[w].height > 0;
    assert logs[w].height <= Highest(logs);
    assert logs[i] in logs;
  }

  /** Nodes whose relay failed have height 0; leaving them out, or adding more, changes nobody's acceptance. */
  lemma FailedNodesDoNotMatter(
    a: seq<NodeLog>, b: seq<NodeLog>, altruist: int, allowance: int, threshold: real, height: int)
    requires a != [] && b != [] && altruist >= 0 && allowance >= 0 && 0.0 < threshold <= 1.0
    requires forall n: NodeLog | n.height > 0 :: n in a <==> n in b
    requires exists n :: n in a && n.height > 0
    ensures Accepted(a, altruist, allowance, threshold, height) <==> Accepted(b, altruist, allowance, threshold, height)
  {
    var n :| n in a && n.height > 0;
    assert n in b;
    SameTop(a, b, n);
    SameTop(b, a, n);
    SameAhead(a, b, altruist);
    hide Accepted, Highest;
    AcceptedIsWindow(a, altruist, allowance, threshold, height);
    AcceptedIsWindow(b, altruist, allowance, threshold, height);
  }

  lemma SameTop(a: seq<NodeLog>, b: seq<NodeLog>, n: NodeLog)
    requires n in a && n in b && n.height > 0 && forall m: NodeLog | m.height > 0 :: m in a ==> m in b
    ensures Highest(a) <= Highest(b)
  {
    var i :| 0 <= i < |a| && a[i].height == Highest(a);
    var w :| 0 <= w < |a| && a[w] == n;
    assert 0 < a[w].height <= Highest(a);
    assert a[i] in a && a[i] in b;
  }

  lemma SameAhead(a: seq<NodeLog>, b: seq<NodeLog>, altruist: int)
    requires forall m: NodeLog | m.height > 0 :: m in a <==> m in b
    ensures AllValidAhead(a, altruist) <==> AllValidAhead(b, altruist)
  {
    AheadByMembers(a, altruist);
    AheadByMembers(b, altruist);
  }

  lemma AheadByMembers(a: seq<NodeLog>, altruist: int)
    ensures AllValidAhead(a, altruist) <==>
      (exists n :: n in a && n.height > 0) && forall n | n in a && n.height > 0 :: n.height > altruist
  {
    assert forall i | 0 <= i < |a| :: a[i] in a;
  }

  /** A run in which no node answered accepts nobody. */
  lemma NobodyAnswered(logs: seq<NodeLog>, altruist: int, allowance: int, threshold: real)
    requires logs != [] && forall n | n in logs :: n.height <= 0
    ensures forall n | n in logs :: !Accepted(logs, altruist, allowance, threshold, n.height)
  {
  }

  /**
   Acceptance is not monotone in the allowance: a node accepted at one allowance is rejected at a larger one exactly
   when the altruist is trusted and the larger allowance reaches a top node out of the smaller one's reach and the
   node's.
   */
  lemma WhenMoreAllowanceRejects(logs: seq<NodeLog>, altruist: int, small: int, large: int, threshold: real, n: NodeLog)
    requires logs != [] && altruist >= 0 && 0 <= small <= large && 0.0 < threshold <= 1.0 && n in logs
    requires Accepted(logs, altruist, small, threshold, n.height)
    ensures !Accepted(logs, altruist, large, threshold, n.height) <==>
      && !AllValidAhead(logs, altruist)
      && altruist + small < Highest(logs) <= altruist + large
      && n.height + large < Highest(logs)
  {
    AcceptedIsWindow(logs, altruist, small, threshold, n.height);
    AcceptedIsWindow(logs, altruist, large, threshold, n.height);
    var i :| 0 <= i < |logs| && logs[i] == n;
    assert n.height <= Highest(logs);
  }

  /** The concrete case: altruist at 100, top node at 110; height 95 passes with allowance 5 and fails with 10. */
  lemma MoreAllowanceCanReject()
    ensures var logs := [NodeLog("a", 110), NodeLog("b", 95)];
      Accepted(logs, 100, 5, 0.5, 95) && !Accepted(logs, 100, 10, 0.5, 95)
  {
    var logs := [NodeLog("a", 110), NodeLog("b", 95)];
    assert logs[1].height > 0 && logs[1].height <= 100;
    var h := Highest(logs);
    assert logs[0].height <= h;
    AcceptedIsWindow(logs, 100, 5, 0.5, 95);
    AcceptedIsWindow(logs, 100, 10, 0.5, 95);
  }
}
