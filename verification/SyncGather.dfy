/** sync-check.go, getNodeSyncLogs: one goroutine per node sends its log to a channel with room for all. */
module SyncGather {
  import opened Wrappers
  import opened Counting
  import opened SyncCheck
  import opened SyncSelection

  /** A node and what its relay will answer; None is a failed relay. */
  datatype Query = Query(publicKey: string, answer: Option<int>)

  function LogOf(q: Query): NodeLog {
    NodeLog(q.publicKey, if q.answer.Some? then q.answer.value else 0)
  }

  datatype Pc = Relaying | Sending(log: NodeLog) | Signalling | Done

  datatype Main = WaitingAll | Draining | Gathered

  datatype State = State(pcs: seq<Pc>, chan: seq<NodeLog>, closed: bool, logs: seq<NodeLog>, main: Main)

  datatype Step = Node(i: nat) | Close | Receive | Stop

  function Init(queries: seq<Query>): State {
    State(seq(|queries|, _ => Relaying), [], false, [], WaitingAll)
  }

  /**
   A channel send waits for room; the main goroutine waits for all nodes, and ranges until the channel is closed and
   empty.
   */
  predicate Enabled(queries: seq<Query>, s: State, step: Step) {
    match step
    case Node(i) => i < |s.pcs| && i < |queries| && !s.pcs[i].Done? && (s.pcs[i].Sending? ==> |s.chan| < |queries|)
    case Close => s.main.WaitingAll? && forall i | 0 <= i < |s.pcs| :: s.pcs[i].Done?
    case Receive => s.main.Draining? && s.chan != []
    case Stop => s.main.Draining? && s.chan == [] && s.closed
  }

  function Next(queries: seq<Query>, s: State, step: Step): State
    requires Enabled(queries, s, step)
  {
    match step
    case Node(i) =>
      (match s.pcs[i]
       case Relaying => s.(pcs := s.pcs[i := Sending(LogOf(queries[i]))])
       case Sending(log) => s.(pcs := s.pcs[i := Signalling], chan := s.chan + [log])
       case Signalling => s.(pcs := s.pcs[i := Done]))
    case Close => s.(closed := true, main := Draining)
    case Receive => s.(chan := s.chan[1..], logs := s.logs + [s.chan[0]])
    case Stop => s.(main := Gathered)
  }

  predicate Possible(queries: seq<Query>, s: State, trace: seq<Step>)
    decreases |trace|
  {
    trace == [] || (Enabled(queries, s, trace[0]) && Possible(queries, Next(queries, s, trace[0]), trace[1..]))
  }

  function After(queries: seq<Query>, s: State, trace: seq<Step>): State
    requires Possible(queries, s, trace)
    decreases |trace|
  {
    if trace == [] then s else After(queries, Next(queries, s, trace[0]), trace[1..])
  }

  predicate Sent(pc: Pc) {
    pc.Signalling? || pc.Done?
  }

  /** The logs of the nodes that have not sent theirs. */
  function Unsent(queries: seq<Query>, pcs: seq<Pc>): multiset<NodeLog>
    requires |pcs| == |queries|
  {
    if pcs == [] then multiset{}
    else Unsent(queries[1..], pcs[1..]) + if Sent(pcs[0]) then multiset{} else multiset{LogOf(queries[0])}
  }

  lemma {:induction false} UnsentUpdate(queries: seq<Query>, pcs: seq<Pc>, i: nat, pc: Pc)
    requires |pcs| == |queries| && i < |pcs|
    ensures Sent(pcs[i]) == Sent(pc) ==> Unsent(queries, pcs[i := pc]) == Unsent(queries, pcs)
    ensures !Sent(pcs[i]) && Sent(pc) ==>
      Unsent(queries, pcs) == Unsent(queries, pcs[i := pc]) + multiset{LogOf(queries[i])}
  {
    if i == 0 {
      assert pcs[0 := pc][1..] == pcs[1..];
    } else {
      assert pcs[i := pc][1..] == pcs[1..][i - 1 := pc];
      UnsentUpdate(queries[1..], pcs[1..], i - 1, pc);
    }
  }

  lemma {:induction false} UnsentWhenDone(queries: seq<Query>, pcs: seq<Pc>)
    requires |pcs| == |queries| && forall i | 0 <= i < |pcs| :: pcs[i].Done?
    ensures Unsent(queries, pcs) == multiset{}
  {
    if pcs != [] {
      UnsentWhenDone(queries[1..], pcs[1..]);
    }
  }

  /** All logs, in node order. */
  function Logs(queries: seq<Query>): (logs: seq<NodeLog>)
    ensures |logs| == |queries|
  {
    if queries == [] then [] else [LogOf(queries[0])] + Logs(queries[1..])
  }

  lemma {:induction false} UnsentAtStart(queries: seq<Query>, pcs: seq<Pc>)
    requires |pcs| == |queries| && forall i | 0 <= i < |pcs| :: pcs[i].Relaying?
    ensures Unsent(queries, pcs) == multiset(Logs(queries))
  {
    if pcs != [] {
      UnsentAtStart(queries[1..], pcs[1..]);
    }
  }

  /** Received, in the channel, or still to be sent: no log is lost or doubled. */
  ghost predicate Inv(queries: seq<Query>, s: State) {
    && |s.pcs| == |queries|
    && (forall i | 0 <= i < |s.pcs| && s.pcs[i].Sending? :: s.pcs[i].log == LogOf(queries[i]))
    && multiset(s.logs) + multiset(s.chan) + Unsent(queries, s.pcs) == multiset(Logs(queries))
    && (!s.main.WaitingAll? ==> s.closed && forall i | 0 <= i < |s.pcs| :: s.pcs[i].Done?)
    && (s.main.WaitingAll? ==> s.logs == [] && !s.closed)
    && (s.main.Gathered? ==> s.chan == [])
  }

  lemma NodeStepKept(queries: seq<Query>, s: State, i: nat)
    requires Inv(queries, s) && Enabled(queries, s, Node(i))
    ensures Inv(queries, Next(queries, s, Node(i)))
  {
    var s' := Next(queries, s, Node(i));
    UnsentUpdate(queries, s.pcs, i, s'.pcs[i]);
    hide Unsent, Logs;
    if s.pcs[i].Sending? {
      SendConserves(s.logs, s.chan, Unsent(queries, s'.pcs), LogOf(queries[i]));
      hide LogOf;
    }
  }

  lemma SendConserves(logs: seq<NodeLog>, chan: seq<NodeLog>, rest: multiset<NodeLog>, x: NodeLog)
    ensures multiset(logs) + multiset(chan + [x]) + rest == multiset(logs) + multiset(chan) + (rest + multiset{x})
  {
  }

  lemma ReceiveKept(queries: seq<Query>, s: State)
    requires Inv(queries, s) && Enabled(queries, s, Receive)
    ensures Inv(queries, Next(queries, s, Receive))
  {
    hide Unsent, Logs;
    assert s.chan == [s.chan[0]] + s.chan[1..];
    assert multiset(s.chan) == multiset{s.chan[0]} + multiset(s.chan[1..]);
  }

  lemma StepKept(queries: seq<Query>, s: State, step: Step)
    requires Inv(queries, s) && Enabled(queries, s, step)
    ensures Inv(queries, Next(queries, s, step))
  {
    hide Unsent, Logs;
    match step
    case Node(i) => NodeStepKept(queries, s, i);
    case Receive => ReceiveKept(queries, s);
    case _ =>
  }

  lemma {:induction false} TraceKept(queries: seq<Query>, s: State, trace: seq<Step>)
    requires Inv(queries, s) && Possible(queries, s, trace)
    ensures Inv(queries, After(queries, s, trace))
    decreases |trace|
  {
    if trace != [] {
      StepKept(queries, s, trace[0]);
      hide Inv, Next, Enabled;
      TraceKept(queries, Next(queries, s, trace[0]), trace[1..]);
    }
  }

  lemma Reached(queries: seq<Query>, trace: seq<Step>)
    requires Possible(queries, Init(queries), trace)
    ensures Inv(queries, After(queries, Init(queries), trace))
  {
    UnsentAtStart(queries, Init(queries).pcs);
    TraceKept(queries, Init(queries), trace);
  }

  lemma RoomForUnsent(queries: seq<Query>, s: State, i: nat)
    requires Inv(queries, s) && i < |s.pcs| && !Sent(s.pcs[i])
    ensures |s.chan| < |queries|
  {
    UnsentUpdate(queries, s.pcs, i, Done);
    var all := multiset(Logs(queries));
    var rest := multiset(s.logs) + Unsent(queries, s.pcs[i := Done]) + multiset{LogOf(queries[i])};
    assert all == multiset(s.chan) + rest;
    assert |all| == |multiset(s.chan)| + |rest|;
  }

  /** A goroutine that has a log to send always finds the channel open and with room. */
  lemma SendNeverBlocks(queries: seq<Query>, trace: seq<Step>, i: nat)
    requires Possible(queries, Init(queries), trace)
    requires var s := After(queries, Init(queries), trace); i < |s.pcs| && s.pcs[i].Sending?
    ensures var s := After(queries, Init(queries), trace); Enabled(queries, s, Node(i)) && !s.closed
  {
    Reached(queries, trace);
    RoomForUnsent(queries, After(queries, Init(queries), trace), i);
  }

  /** No state is stuck before the logs are gathered. */
  lemma NeverStuck(queries: seq<Query>, s: State) returns (step: Step)
    requires Inv(queries, s) && !s.main.Gathered?
    ensures Enabled(queries, s, step)
  {
    if s.main.Draining? {
      step := if s.chan != [] then Receive else Stop;
    } else if i: nat :| i < |s.pcs| && !s.pcs[i].Done? {
      if s.pcs[i].Sending? {
        RoomForUnsent(queries, s, i);
      }
      step := Node(i);
    } else {
      step := Close;
    }
  }

  lemma AllGathered(queries: seq<Query>, trace: seq<Step>)
    requires Possible(queries, Init(queries), trace)
    requires After(queries, Init(queries), trace).main.Gathered?
    ensures multiset(After(queries, Init(queries), trace).logs) == multiset(Logs(queries))
  {
    Reached(queries, trace);
    UnsentWhenDone(queries, After(queries, Init(queries), trace).pcs);
  }

  lemma {:induction false} LogsAre(queries: seq<Query>)
    ensures forall i | 0 <= i < |queries| ::
      && Logs(queries)[i].publicKey == queries[i].publicKey
      && Logs(queries)[i].height == if queries[i].answer.Some? then queries[i].answer.value else 0
  {
    if queries != [] {
      LogsAre(queries[1..]);
    }
  }

  /** The queries whose log has this public key and height: the relay answered that height, or failed and it is 0. */
  ghost function Answering(queries: seq<Query>, publicKey: string, height: int): set<nat> {
    set i: nat | i < |queries| && queries[i].publicKey == publicKey
      && (queries[i].answer == Some(height) || (queries[i].answer.None? && height == 0))
  }

  /** Every interleaving gathers for each query exactly one log: its relay's answer, or height 0 if the relay failed. */
  lemma EveryLogGathered(queries: seq<Query>, trace: seq<Step>)
    requires Possible(queries, Init(queries), trace)
    requires After(queries, Init(queries), trace).main.Gathered?
    ensures var logs := After(queries, Init(queries), trace).logs;
      && multiset(logs) == multiset(Logs(queries)) && |logs| == |queries|
      && forall n: NodeLog :: multiset(logs)[n] == |Answering(queries, n.publicKey, n.height)|
  {
    AllGathered(queries, trace);
    LogsAre(queries);
    var logs := After(queries, Init(queries), trace).logs;
    assert |multiset(logs)| == |logs| && |multiset(Logs(queries))| == |Logs(queries)|;
    hide After, Init, Possible, Logs;
    forall n: NodeLog ensures multiset(logs)[n] == |Answering(queries, n.publicKey, n.height)| {
      OccurrencesAre(Logs(queries), n);
      assert PlacesOf(Logs(queries), n) == Answering(queries, n.publicKey, n.height);
    }
  }

  /**
   For fixed relay answers, no interleaving of the gather changes which nodes pass: the gathered list and the list in
   node order hold the same logs and accept the same heights.
   */
  lemma InterleavingIrrelevant(
    queries: seq<Query>, trace: seq<Step>, altruist: int, allowance: int, threshold: real, n: NodeLog)
    requires queries != [] && Possible(queries, Init(queries), trace)
    requires After(queries, Init(queries), trace).main.Gathered?
    ensures var logs := After(queries, Init(queries), trace).logs;
      && logs != []
      && (Accepted(logs, altruist, allowance, threshold, n.height) <==>
          Accepted(Logs(queries), altruist, allowance, threshold, n.height))
      && multiset(logs)[n] == multiset(Logs(queries))[n]
  {
    AllGathered(queries, trace);
    JudgeIgnoresOrder(Logs(queries), After(queries, Init(queries), trace).logs, altruist, allowance, threshold);
  }

  /** The highest of the heights that relays answered. */
  ghost predicate IsTopAnswer(queries: seq<Query>, top: int) {
    && (exists i :: 0 <= i < |queries| && queries[i].answer == Some(top))
    && (forall i | 0 <= i < |queries| && queries[i].answer.Some? :: queries[i].answer.value <= top)
  }

  ghost predicate AllAnswersAhead(queries: seq<Query>, altruist: int) {
    forall i | 0 <= i < |queries| && queries[i].answer.Some? && queries[i].answer.value > 0 ::
      queries[i].answer.value > altruist
  }

  /**
   Which heights pass after any gather, in terms of what the relays answered alone: a window on the positive heights.
   Failed relays are never accepted and change nothing, and without a positive answer no node is accepted.
   */
  lemma GatheredWindow(
    queries: seq<Query>, trace: seq<Step>, altruist: int, allowance: int, threshold: real, top: int, height: int)
    requires Possible(queries, Init(queries), trace) && After(queries, Init(queries), trace).main.Gathered?
    requires altruist >= 0 && allowance >= 0 && 0.0 < threshold <= 1.0 && top > 0 && IsTopAnswer(queries, top)
    ensures var logs := After(queries, Init(queries), trace).logs;
      logs != [] &&
      (Accepted(logs, altruist, allowance, threshold, height) <==>
        && height > 0
        && if AllAnswersAhead(queries, altruist) then top - allowance <= height <= top + allowance
           else
             var floor := if altruist < top <= altruist + allowance then top else altruist;
             floor - allowance <= height <= altruist + allowance)
  {
    InterleavingIrrelevant(queries, trace, altruist, allowance, threshold, NodeLog("", height));
    hide After, Init, Possible, Accepted;
    AcceptedIsWindow(Logs(queries), altruist, allowance, threshold, height);
    TopOfLogs(queries, top);
    AheadInLogs(queries, altruist, top);
  }

  lemma TopOfLogs(queries: seq<Query>, top: int)
    requires top > 0 && IsTopAnswer(queries, top)
    ensures Logs(queries) != [] && Highest(Logs(queries)) == top
  {
    LogsAre(queries);
    var i :| 0 <= i < |queries| && queries[i].answer == Some(top);
    assert Logs(queries)[i].height == top;
    hide Logs;
  }

  lemma AheadInLogs(queries: seq<Query>, altruist: int, top: int)
    requires altruist >= 0 && top > 0 && IsTopAnswer(queries, top)
    ensures AllValidAhead(Logs(queries), altruist) <==> AllAnswersAhead(queries, altruist)
  {
    LogsAre(queries);
    var i :| 0 <= i < |queries| && queries[i].answer == Some(top);
    assert Logs(queries)[i].height == top;
    hide Logs;
  }

  /** When no relay answers a positive height, nobody is accepted. */
  lemma NoAnswerNobody(queries: seq<Query>, trace: seq<Step>, altruist: int, allowance: int, threshold: real)
    requires queries != [] && Possible(queries, Init(queries), trace)
    requires After(queries, Init(queries), trace).main.Gathered?
    requires forall i | 0 <= i < |queries| && queries[i].answer.Some? :: queries[i].answer.value <= 0
    ensures var logs := After(queries, Init(queries), trace).logs;
      logs != [] && forall n | n in logs :: !Accepted(logs, altruist, allowance, threshold, n.height)
  {
    AllGathered(queries, trace);
    LogsAre(queries);
    var logs := After(queries, Init(queries), trace).logs;
    assert |multiset(logs)| == |logs| && |multiset(Logs(queries))| == |Logs(queries)|;
    hide After, Init, Possible, Logs;
    forall n | n in logs ensures n.height <= 0 {
      assert n in multiset(logs);
      assert n in Logs(queries);
    }
    NobodyAnswered(logs, altruist, allowance, threshold);
  }
}
