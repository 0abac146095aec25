/** shared/gateway/gateway.go, ShouldDispatch: a sampled check of what the caches hold for one key. */
module Freshness {
  import opened Wrappers
  import opened Counting
  import opened CachedSessions

  /** One goroutine per sampled cache; the counter and the session pointer are shared. */
  datatype Pc = Reading | Counting(session: Session) | Publishing(session: Session) | Done

  datatype State = State(pcs: seq<Pc>, cachedClients: nat, published: Option<Session>)

  function Init(replies: seq<Reply>): State {
    State(seq(|replies|, _ => Reading), 0, None)
  }

  predicate Enabled(replies: seq<Reply>, s: State, i: nat) {
    i < |s.pcs| && i < |replies| && !s.pcs[i].Done?
  }

  function Next(replies: seq<Reply>, height: int, s: State, i: nat): State
    requires Enabled(replies, s, i)
  {
    match s.pcs[i]
    case Reading =>
      s.(pcs := s.pcs[i := if IsFresh(replies[i], height) then Counting(replies[i].value.session) else Done])
    case Counting(session) => s.(pcs := s.pcs[i := Publishing(session)], cachedClients := s.cachedClients + 1)
    case Publishing(session) => s.(pcs := s.pcs[i := Done], published := Some(session))
  }

  predicate Possible(replies: seq<Reply>, height: int, s: State, schedule: seq<nat>)
    decreases |schedule|
  {
    || schedule == []
    || (&& Enabled(replies, s, schedule[0])
        && Possible(replies, height, Next(replies, height, s, schedule[0]), schedule[1..]))
  }

  function After(replies: seq<Reply>, height: int, s: State, schedule: seq<nat>): State
    requires Possible(replies, height, s, schedule)
    decreases |schedule|
  {
    if schedule == [] then s else After(replies, height, Next(replies, height, s, schedule[0]), schedule[1..])
  }

  ghost function FreshOnes(replies: seq<Reply>, height: int): set<nat> {
    set i: nat | i < |replies| && IsRecent(replies, i, height)
  }

  /** Cache `i` of the sample holds a session of at least this block height. */
  predicate IsRecent(replies: seq<Reply>, i: nat, height: int)
    requires i < |replies|
  {
    replies[i].Some? && replies[i].value.Cached? && replies[i].value.session.blockHeight >= height
  }

  ghost predicate IsFreshSession(replies: seq<Reply>, height: int, session: Session) {
    exists i: nat :: i < |replies| && IsFresh(replies[i], height) && replies[i].value.session == session
  }

  /** The fresh goroutines that have counted themselves. */
  ghost function Counted(replies: seq<Reply>, height: int, s: State): set<nat> {
    set i: nat | i < |s.pcs| && i < |replies| && IsFresh(replies[i], height) && (s.pcs[i].Publishing? || s.pcs[i].Done?)
  }

  ghost predicate CountOk(replies: seq<Reply>, height: int, s: State) {
    |s.pcs| == |replies| && s.cachedClients == |Counted(replies, height, s)|
  }

  ghost predicate PublishedOk(replies: seq<Reply>, height: int, s: State) {
    && |s.pcs| == |replies|
    && (forall i | 0 <= i < |s.pcs| && (s.pcs[i].Counting? || s.pcs[i].Publishing?) ::
          IsFresh(replies[i], height) && replies[i].value.session == s.pcs[i].session)
    && (s.published.Some? ==> IsFreshSession(replies, height, s.published.value))
    && (forall i | 0 <= i < |s.pcs| && s.pcs[i].Done? && IsFresh(replies[i], height) :: s.published.Some?)
  }

  ghost predicate Inv(replies: seq<Reply>, height: int, s: State) {
    CountOk(replies, height, s) && PublishedOk(replies, height, s)
  }

  lemma CountedMoves(replies: seq<Reply>, height: int, s: State, i: nat)
    requires Inv(replies, height, s) && Enabled(replies, s, i)
    ensures var s' := Next(replies, height, s, i);
      Counted(replies, height, s') == Counted(replies, height, s) + if s.pcs[i].Counting? then {i} else {}
  {
    hide IsFresh;
    var s' := Next(replies, height, s, i);
    assert forall j | 0 <= j < |s.pcs| && j != i :: s'.pcs[j] == s.pcs[j];
  }

  lemma CountKept(replies: seq<Reply>, height: int, s: State, i: nat)
    requires Inv(replies, height, s) && Enabled(replies, s, i)
    ensures CountOk(replies, height, Next(replies, height, s, i))
  {
    CountedMoves(replies, height, s, i);
    assert s.pcs[i].Counting? ==> i !in Counted(replies, height, s);
    hide Counted, PublishedOk, IsFresh;
  }

  lemma PublishedKept(replies: seq<Reply>, height: int, s: State, i: nat)
    requires PublishedOk(replies, height, s) && Enabled(replies, s, i)
    ensures PublishedOk(replies, height, Next(replies, height, s, i))
  {
  }

  lemma StepKept(replies: seq<Reply>, height: int, s: State, i: nat)
    requires Inv(replies, height, s) && Enabled(replies, s, i)
    ensures Inv(replies, height, Next(replies, height, s, i))
  {
    CountKept(replies, height, s, i);
    PublishedKept(replies, height, s, i);
  }

  lemma {:induction false} ScheduleKept(replies: seq<Reply>, height: int, s: State, schedule: seq<nat>)
    requires Inv(replies, height, s) && Possible(replies, height, s, schedule)
    ensures Inv(replies, height, After(replies, height, s, schedule))
    decreases |schedule|
  {
    if schedule != [] {
      StepKept(replies, height, s, schedule[0]);
      hide Inv, Next, Enabled;
      ScheduleKept(replies, height, Next(replies, height, s, schedule[0]), schedule[1..]);
    }
  }

  predicate AllDone(s: State) {
    forall i | 0 <= i < |s.pcs| :: s.pcs[i].Done?
  }

  /** The results of ShouldDispatch once all goroutines are done. */
  function ShouldDispatch(replies: seq<Reply>, s: State): (bool, Option<Session>) {
    (s.cachedClients != |replies|, s.published)
  }

  /**
   For every interleaving: the answer is false exactly when every sampled cache holds a session of at least the current
   block height; a session comes back exactly when some sampled cache holds such a one, and it is one of those.
   */
  lemma ShouldDispatchMeans(replies: seq<Reply>, height: int, schedule: seq<nat>)
    requires Possible(replies, height, Init(replies), schedule)
    requires AllDone(After(replies, height, Init(replies), schedule))
    ensures var (dispatch, session) := ShouldDispatch(replies, After(replies, height, Init(replies), schedule));
      && (!dispatch <==> forall i: nat | i < |replies| :: IsRecent(replies, i, height))
      && (session.Some? <==> exists i: nat :: i < |replies| && IsRecent(replies, i, height))
      && (session.Some? ==> session.value.blockHeight >= height && Some(Cached(session.value)) in replies)
  {
    var init := Init(replies);
    assert Counted(replies, height, init) == {};
    ScheduleKept(replies, height, init, schedule);
    var s := After(replies, height, init, schedule);
    assert Counted(replies, height, s) == FreshOnes(replies, height);
    AllFreshByCount(replies, height);
    forall i: nat | i < |replies| && IsRecent(replies, i, height) ensures s.published.Some? {
      assert s.pcs[i].Done? && IsFresh(replies[i], height);
    }
    if s.published.Some? {
      var i: nat :| i < |replies| && IsFresh(replies[i], height) && replies[i].value.session == s.published.value;
      assert IsRecent(replies, i, height);
    }
  }

  lemma AllFreshByCount(replies: seq<Reply>, height: int)
    ensures |FreshOnes(replies, height)| == |replies| <==> forall i: nat | i < |replies| :: IsRecent(replies, i, height)
  {
    var all := Where(replies, Any);
    WhereAny(replies);
    var good := FreshOnes(replies, height);
    assert good <= all;
    if forall i: nat | i < |replies| :: IsRecent(replies, i, height) {
      assert good == all;
    } else {
      var i: nat :| i < |replies| && !IsRecent(replies, i, height);
      assert i in all && good <= all - {i};
      SubsetSize(good, all - {i});
    }
  }

  /** The first `k` entries of a shuffle of all caches: distinct caches, in any order. */
  ghost predicate IsSample(total: nat, k: nat, sample: seq<nat>) {
    && |sample| == k
    && (forall i | 0 <= i < k :: sample[i] < total)
    && (forall i, j | 0 <= i < j < k :: sample[i] != sample[j])
  }

  function RepliesOf(all: seq<Reply>, sample: seq<nat>): seq<Reply>
    requires forall i | 0 <= i < |sample| :: sample[i] < |all|
  {
    seq(|sample|, i requires 0 <= i < |sample| => all[sample[i]])
  }

  /** Pigeonhole: with fewer fresh caches than are sampled, whatever the shuffle, some sampled one is not fresh. */
  lemma TooFewFresh(all: seq<Reply>, height: int, k: nat, sample: seq<nat>)
    requires IsSample(|all|, k, sample) && |FreshOnes(all, height)| < k
    ensures exists i: nat :: i < k && !IsRecent(RepliesOf(all, sample), i, height)
  {
    if forall i: nat | i < k :: IsRecent(RepliesOf(all, sample), i, height) {
      var picked := set i: nat | i < |sample| :: sample[i];
      PickedSize(sample);
      assert forall i | 0 <= i < k :: RepliesOf(all, sample)[i] == all[sample[i]];
      forall c | c in picked ensures c in FreshOnes(all, height) {
        var i: nat :| i < |sample| && sample[i] == c;
        assert IsRecent(RepliesOf(all, sample), i, height);
      }
      SubsetSize(picked, FreshOnes(all, height));
    }
  }

  /** Fewer fresh caches overall than are sampled: the answer is to dispatch, for every shuffle and interleaving. */
  lemma TooFewFreshDispatches(all: seq<Reply>, height: int, k: nat, sample: seq<nat>, schedule: seq<nat>)
    requires IsSample(|all|, k, sample) && |FreshOnes(all, height)| < k
    requires Possible(RepliesOf(all, sample), height, Init(RepliesOf(all, sample)), schedule)
    requires AllDone(After(RepliesOf(all, sample), height, Init(RepliesOf(all, sample)), schedule))
    ensures var replies := RepliesOf(all, sample);
      ShouldDispatch(replies, After(replies, height, Init(replies), schedule)).0
  {
    TooFewFresh(all, height, k, sample);
    ShouldDispatchMeans(RepliesOf(all, sample), height, schedule);
  }

  lemma {:induction false} PickedSize(sample: seq<nat>)
    requires forall i, j | 0 <= i < j < |sample| :: sample[i] != sample[j]
    ensures |set i: nat | i < |sample| :: sample[i]| == |sample|
  {
    if sample != [] {
      var n := |sample| - 1;
      PickedSize(sample[..n]);
      var before, now := set i: nat | i < |sample[..n]| :: sample[..n][i], set i: nat | i < |sample| :: sample[i];
      assert now == before + {sample[n]};
    }
  }
}
