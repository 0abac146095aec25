/** What the provider answered decides what each task of the dispatcher sends or counts, and nothing else does. */
module DispatcherReplies {
  import opened Arithmetic
  import opened Text
  import opened Keys
  import opened Counting
  import opened CachedSessions
  import opened BatchWriter
  import opened Dispatcher
  import opened DispatcherControl
  import opened DispatcherStream
  import opened DispatcherRun

  function ItemFor(cfg: Config, i: nat, session: Session): SessionItem
    requires i < |cfg.pairs|
  {
    Item(cfg.keyPrefix + "-" + cfg.pairs[i].publicKey + "-" + cfg.pairs[i].chain, Cached(session))
  }

  lemma KeyIsPrinted(cfg: Config, i: nat)
    requires i < |cfg.pairs|
    ensures KeyOf(cfg, i) == cfg.keyPrefix + "-" + cfg.pairs[i].publicKey + "-" + cfg.pairs[i].chain
  {
    assert "" + cfg.keyPrefix == cfg.keyPrefix;
  }

  predicate OutcomeOk(cfg: Config, i: nat, outcome: Outcome, replies: map<nat, RpcReply>)
    requires i < |cfg.pairs|
  {
    match outcome
    case Skipped(_) => i !in replies
    case TooFewNodes => i in replies && replies[i] == LessThanMinimumNodes
    case Failed => i in replies && replies[i] == DispatchError
    case BadSession => i in replies && replies[i] == Unmarshalable
    case Sent(item) => i in replies && replies[i].Dispatched? && item == ItemFor(cfg, i, replies[i].session)
  }

  predicate ReplyOk(cfg: Config, i: nat, pc: Pc, replies: map<nat, RpcReply>)
    requires i < |cfg.pairs|
  {
    if pc.Past() then OutcomeOk(cfg, i, pc.outcome, replies)
    else
      match pc
      case CountingFailure => OutcomeOk(cfg, i, Failed, replies)
      case Sending(item) => OutcomeOk(cfg, i, Sent(item), replies)
      case _ => i !in replies
  }

  ghost predicate RepliesInv(cfg: Config, s: State) {
    |s.pcs| == |cfg.pairs| && forall i: nat | i < |s.pcs| :: ReplyOk(cfg, i, s.pcs[i], s.replies)
  }

  lemma TaskReplies(cfg: Config, s: State, i: nat, choice: Choice)
    requires ControlInv(cfg, s) && RepliesInv(cfg, s) && TaskEnabled(cfg, s, i, choice)
    ensures RepliesInv(cfg, NextTask(cfg, s, i, choice))
  {
    var s' := NextTask(cfg, s, i, choice);
    TaskMoves(cfg, s, i, choice);
    MoverReplies(cfg, s, i, choice);
    hide ControlInv, NextTask, OutcomeOk;
    forall j: nat | j < |s'.pcs| ensures ReplyOk(cfg, j, s'.pcs[j], s'.replies) {
      assert ReplyOk(cfg, j, s.pcs[j], s.replies);
      if j != i {
        OthersReplies(cfg, j, s.pcs[j], s.replies, s'.replies);
      }
    }
  }

  lemma OthersReplies(cfg: Config, j: nat, pc: Pc, replies: map<nat, RpcReply>, replies': map<nat, RpcReply>)
    requires j < |cfg.pairs| && ReplyOk(cfg, j, pc, replies)
    requires (j in replies' <==> j in replies) && (j in replies ==> replies'[j] == replies[j])
    ensures ReplyOk(cfg, j, pc, replies')
  {
  }

  lemma MoverReplies(cfg: Config, s: State, i: nat, choice: Choice)
    requires ControlInv(cfg, s) && RepliesInv(cfg, s) && TaskEnabled(cfg, s, i, choice)
    ensures var s' := NextTask(cfg, s, i, choice);
      && i < |s'.pcs| && ReplyOk(cfg, i, s'.pcs[i], s'.replies)
      && forall j: nat | j != i ::
          (j in s'.replies <==> j in s.replies) && (j in s.replies ==> s'.replies[j] == s.replies[j])
  {
    if s.pcs[i].Pending() {
      PendingKeepsOpen(cfg, s, i);
    }
    assert ReplyOk(cfg, i, s.pcs[i], s.replies);
    KeyIsPrinted(cfg, i);
    hide ControlInv, RepliesInv, KeyOf, CacheNow, IsFresh;
  }

  lemma StepReplies(cfg: Config, s: State, step: Step)
    requires WellFormed(cfg) && ControlInv(cfg, s) && RepliesInv(cfg, s) && Enabled(cfg, s, step)
    ensures RepliesInv(cfg, Next(cfg, s, step))
  {
    hide NextTask, CountersOk, ReplyOk;
    match step
    case TaskStep(i, choice) => TaskReplies(cfg, s, i, choice);
    case _ => OtherStep(cfg, s, Next(cfg, s, step));
  }

  lemma OtherStep(cfg: Config, s: State, s': State)
    requires RepliesInv(cfg, s) && s'.replies == s.replies && |s'.pcs| == |s.pcs|
    requires forall i: nat | i < |s.pcs| :: s'.pcs[i] == s.pcs[i] || (s.pcs[i].Waiting? && s'.pcs[i].Starting?)
    ensures RepliesInv(cfg, s')
  {
    hide OutcomeOk;
    forall i: nat | i < |s'.pcs| ensures ReplyOk(cfg, i, s'.pcs[i], s'.replies) {
      assert ReplyOk(cfg, i, s.pcs[i], s.replies);
    }
  }

  lemma {:induction false} TraceReplies(cfg: Config, s: State, trace: seq<Step>)
    requires WellFormed(cfg) && Inv(cfg, s) && RepliesInv(cfg, s) && Possible(cfg, s, trace)
    ensures RepliesInv(cfg, After(cfg, s, trace))
    decreases |trace|
  {
    if trace != [] {
      hide RepliesInv, StreamOk, AccountInv, ControlInv, Next, Enabled;
      StepReplies(cfg, s, trace[0]);
      StepKept(cfg, s, trace[0]);
      TraceReplies(cfg, Next(cfg, s, trace[0]), trace[1..]);
    }
  }

  /** The tasks the provider answered with a real dispatch error. */
  ghost function Refused(cfg: Config, s: State): set<nat> {
    set i: nat | i < |cfg.pairs| && i in s.replies && s.replies[i] == DispatchError
  }

  /** The session that the provider gave task `i` is the item that task sent; a task it gave none sent nothing. */
  ghost predicate SentAsAnswered(cfg: Config, s: State, i: nat)
    requires i < |cfg.pairs|
  {
    forall session :: (i in s.replies && s.replies[i] == Dispatched(session)) <==>
      exists m ::
          0 <= m < |s.out.sent| && m < |s.senders| && s.senders[m] == i && s.out.sent[m] == ItemFor(cfg, i, session)
  }

  /**
   At the return the count of failures is the number of tasks answered with a real dispatch error, modulo 2^32, and the
   items sent are the sessions the provider gave, each under the key printed from its pair. Items of different pairs
   have different keys, as long as public keys and chains have no dashes.
   */
  lemma AnswersAtReturn(cfg: Config, trace: seq<Step>)
    requires WellFormed(cfg) && Possible(cfg, Init(cfg), trace)
    requires After(cfg, Init(cfg), trace).main.Returned?
    ensures var s := After(cfg, Init(cfg), trace);
      && s.failed == |Refused(cfg, s)| % UINT32
      && (forall i: nat | i < |cfg.pairs| :: SentAsAnswered(cfg, s, i))
      && |s.out.sent| == |s.senders| && (forall m, n | 0 <= m < n < |s.senders| :: s.senders[m] != s.senders[n])
      && (forall m | 0 <= m < |s.senders| :: s.senders[m] < |cfg.pairs|)
      && (PairsDashFree(cfg) ==> KeysApart(cfg, s))
  {
    InitInv(cfg);
    TraceReplies(cfg, Init(cfg), trace);
    AccountAtReturn(cfg, trace);
    TraceKept(cfg, Init(cfg), trace);
    var s := After(cfg, Init(cfg), trace);
    hide After, Init, Possible, Inv, SentAsAnswered, Refused, OutcomeOk;
    FailedAreRefused(cfg, s);
    forall i: nat | i < |cfg.pairs| ensures SentAsAnswered(cfg, s, i) {
      SentMeans(cfg, s, i);
    }
    if PairsDashFree(cfg) {
      KeysDiffer(cfg, s);
    }
  }

  predicate PairsDashFree(cfg: Config) {
    forall i | 0 <= i < |cfg.pairs| :: Free('-', cfg.pairs[i].publicKey) && Free('-', cfg.pairs[i].chain)
  }

  ghost predicate KeysApart(cfg: Config, s: State) {
    && |s.senders| == |s.out.sent|
    && forall m, n | 0 <= m < |s.senders| && 0 <= n < |s.senders| ::
         && s.senders[m] < |cfg.pairs| && s.senders[n] < |cfg.pairs|
         && (cfg.pairs[s.senders[m]] != cfg.pairs[s.senders[n]] ==> s.out.sent[m].key != s.out.sent[n].key)
  }

  lemma KeysDiffer(cfg: Config, s: State)
    requires PairsDashFree(cfg) && SendersOk(s) && ItemsOk(cfg, s)
    ensures KeysApart(cfg, s)
  {
    forall m, n | 0 <= m < |s.senders| && 0 <= n < |s.senders|
      ensures s.senders[m] < |cfg.pairs| && s.senders[n] < |cfg.pairs|
      ensures cfg.pairs[s.senders[m]] != cfg.pairs[s.senders[n]] ==> s.out.sent[m].key != s.out.sent[n].key
    {
      var i, j := s.senders[m], s.senders[n];
      assert ItemOk(cfg, i, s.pcs[i].outcome.item) && ItemOk(cfg, j, s.pcs[j].outcome.item);
      var p, q := cfg.pairs[i], cfg.pairs[j];
      assert s.out.sent[m].key == KeyOf(cfg, i) && s.out.sent[n].key == KeyOf(cfg, j);
      hide ItemsOk, SendersOk, SessionCacheKey;
      if KeyOf(cfg, i) == KeyOf(cfg, j) {
        SessionCacheKeyInjective(cfg.keyPrefix, p.publicKey, p.chain, "", cfg.keyPrefix, q.publicKey, q.chain, "");
      }
    }
  }

  lemma FailedAreRefused(cfg: Config, s: State)
    requires RepliesInv(cfg, s) && forall i: nat | i < |s.pcs| :: s.pcs[i].Past()
    ensures Where(s.pcs, IsFailed) == Refused(cfg, s)
  {
    forall i: nat | i < |s.pcs| ensures IsFailed(s.pcs[i]) <==> i in s.replies && s.replies[i] == DispatchError {
      assert ReplyOk(cfg, i, s.pcs[i], s.replies);
    }
    hide ReplyOk, IsFailed;
  }

  lemma SentMeans(cfg: Config, s: State, i: nat)
    requires RepliesInv(cfg, s) && SendersOk(s) && i < |cfg.pairs| && s.pcs[i].Past()
    ensures SentAsAnswered(cfg, s, i)
  {
    assert ReplyOk(cfg, i, s.pcs[i], s.replies);
    hide RepliesInv;
    forall session ensures (i in s.replies && s.replies[i] == Dispatched(session)) <==>
      exists m ::
          0 <= m < |s.out.sent| && m < |s.senders| && s.senders[m] == i && s.out.sent[m] == ItemFor(cfg, i, session)
    {
      if i in s.replies && s.replies[i] == Dispatched(session) {
        var m :| 0 <= m < |s.senders| && s.senders[m] == i;
        assert s.out.sent[m] == ItemFor(cfg, i, session);
      }
    }
  }

  /**
   What DispatchSessions reports: with fewer than 2^32 pairs and a limit that fits, too many failures exactly when more
   tasks than allowed were answered with a real dispatch error. A limit of -1 wraps to 2^32 - 1 and is never exceeded.
   */
  lemma ReportMeans(cfg: Config, trace: seq<Step>, maxErrors: int)
    requires WellFormed(cfg) && Possible(cfg, Init(cfg), trace)
    requires After(cfg, Init(cfg), trace).main.Returned?
    ensures var s := After(cfg, Init(cfg), trace);
      && (|cfg.pairs| < UINT32 && 0 <= maxErrors < UINT32 ==>
            Report(maxErrors, s) == (|Refused(cfg, s)|, |Refused(cfg, s)| > maxErrors))
      && !Report(-1, s).1
  {
    AnswersAtReturn(cfg, trace);
    var s := After(cfg, Init(cfg), trace);
    hide After, Init, Possible, SentAsAnswered;
    BelowSize(Refused(cfg, s), |cfg.pairs|);
    hide Refused;
    if |cfg.pairs| < UINT32 && 0 <= maxErrors < UINT32 {
      QuotientUnique(|Refused(cfg, s)|, UINT32, 0, |Refused(cfg, s)|);
      QuotientUnique(maxErrors, UINT32, 0, maxErrors);
    }
    assert -1 % UINT32 == UINT32 - 1;
  }
}
