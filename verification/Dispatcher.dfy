/**
 global-dispatcher, DispatchSessions, with the batch writer it feeds: the main goroutine, one goroutine per
 (application, chain), the monitor of the batch channel, and the caches, as a small-step system. The RPC provider's
 replies are choices.
 */
module Dispatcher {
  import opened Wrappers
  import opened Keys
  import opened CachedSessions
  import opened BatchWriter
  import opened CacheWriter

  datatype Pair = Pair(publicKey: string, chain: string)

  type SessionItem = Item<Entry>

  datatype Config = Config(
    pairs: seq<Pair>, concurrency: nat, batchSize: nat, caches: seq<Cache<Entry>>, height: int, maxClients: nat,
    keyPrefix: string)

  datatype Outcome =
    | Skipped(sample: set<nat>)
    | TooFewNodes
    | Failed
    | BadSession
    | Sent(item: SessionItem)

  datatype Pc =
    | Waiting
    | Starting
    | Checking(sample: set<nat>, todo: set<nat>, good: nat)
    | Dispatching
    | CountingFailure
    | Sending(item: SessionItem)
    | Signalling(outcome: Outcome)
    | Releasing(outcome: Outcome)
    | Finished(outcome: Outcome)
  {
    predicate Past() {
      Signalling? || Releasing? || Finished?
    }

    /** Between sem.Acquire and sem.Release. */
    predicate Holding() {
      !Waiting? && !Finished?
    }

    /** Between wg.Add and wg.Done. */
    predicate Pending() {
      !Waiting? && !Releasing? && !Finished?
    }
  }

  datatype Main = Spawning | WaitingTasks | Closing | WaitingMonitor | Returned

  /**
   `out` is the batch channel with its monitor and the SETs the caches have executed; a cache holds its initial entries
   overwritten by its SETs. `replies` and `senders` are histories: what the provider answered to which task, and who
   sent the items of `out`.
   */
  datatype State = State(
    main: Main, next: nat, held: int, wg: int, failed: nat, pcs: seq<Pc>, panicked: bool,
    out: Writer<Entry>, replies: map<nat, RpcReply>, senders: seq<nat>)

  /** What rpcProvider.Dispatch, and marshalling its session, came to. */
  datatype RpcReply = LessThanMinimumNodes | DispatchError | Unmarshalable | Dispatched(session: Session)

  datatype Choice = Nothing | Sample(sample: set<nat>) | Read(cache: nat) | Rpc(reply: RpcReply)

  datatype Step = MainStep | TaskStep(i: nat, choice: Choice) | Monitor(step: MonitorStep)

  const UINT32 := 0x1_0000_0000

  function KeyOf(cfg: Config, i: nat): string
    requires i < |cfg.pairs|
  {
    SessionCacheKey(cfg.keyPrefix, cfg.pairs[i].publicKey, cfg.pairs[i].chain, "")
  }

  function CacheNow(cfg: Config, s: State, c: nat): Cache<Entry>
    requires c < |cfg.caches| && c < |s.out.written|
  {
    ApplyAll(cfg.caches[c], s.out.written[c])
  }

  function Lookup(cache: Cache<Entry>, key: string): Reply {
    if key in cache then Some(cache[key]) else None
  }

  function Min(a: nat, b: nat): nat {
    if a < b then a else b
  }

  function Init(cfg: Config): State {
    State(Spawning, 0, 0, 0, 0, seq(|cfg.pairs|, _ => Waiting), false, Started(|cfg.caches|), map[], [])
  }

  predicate MainEnabled(cfg: Config, s: State) {
    match s.main
    case Spawning => |s.pcs| == |cfg.pairs| && s.next <= |s.pcs| && (s.next < |s.pcs| ==> s.held < cfg.concurrency)
    case WaitingTasks => s.wg == 0
    case Closing => true
    case WaitingMonitor => s.out.mon.Exited?
    case Returned => false
  }

  function NextMain(cfg: Config, s: State): State
    requires MainEnabled(cfg, s)
  {
    match s.main
    case Spawning =>
      if s.next < |s.pcs| then
        s.(held := s.held + 1, wg := s.wg + 1, pcs := s.pcs[s.next := Starting], next := s.next + 1)
      else s.(main := WaitingTasks)
    case WaitingTasks => s.(main := Closing)
    case Closing => if s.out.closed then s.(panicked := true) else s.(out := Close(s.out), main := WaitingMonitor)
    case WaitingMonitor => s.(main := Returned)
  }

  predicate TaskEnabled(cfg: Config, s: State, i: nat, choice: Choice) {
    && i < |s.pcs| && i < |cfg.pairs| && |s.out.written| == |cfg.caches|
    && match s.pcs[i]
       case Waiting => false
       case Starting =>
         && choice.Sample? && |choice.sample| == Min(|cfg.caches|, cfg.maxClients)
         && forall c | c in choice.sample :: c < |cfg.caches|
       case Checking(_, todo, _) => todo != {} ==> choice.Read? && choice.cache in todo && choice.cache < |cfg.caches|
       case Dispatching => choice.Rpc?
       case Sending(_) => s.out.closed || |s.out.chan| < cfg.batchSize
       case Finished(_) => false
       case _ => true
  }

  function At(s: State, i: nat, pc: Pc): State
    requires i < |s.pcs|
  {
    s.(pcs := s.pcs[i := pc])
  }

  function Answered(key: string, reply: RpcReply): Pc {
    match reply
    case LessThanMinimumNodes => Signalling(TooFewNodes)
    case DispatchError => CountingFailure
    case Unmarshalable => Signalling(BadSession)
    case Dispatched(session) => Sending(Item(key, Cached(session)))
  }

  function NextTask(cfg: Config, s: State, i: nat, choice: Choice): State
    requires TaskEnabled(cfg, s, i, choice)
  {
    match s.pcs[i]
    case Starting => At(s, i, Checking(choice.sample, choice.sample, 0))
    case Checking(sample, todo, good) =>
      if todo == {} then At(s, i, if good == |sample| then Signalling(Skipped(sample)) else Dispatching)
      else
        var hit := IsFresh(Lookup(CacheNow(cfg, s, choice.cache), KeyOf(cfg, i)), cfg.height);
        At(s, i, Checking(sample, todo - {choice.cache}, good + if hit then 1 else 0))
    case Dispatching => At(s, i, Answered(KeyOf(cfg, i), choice.reply)).(replies := s.replies[i := choice.reply])
    case CountingFailure => At(s, i, Signalling(Failed)).(failed := (s.failed + 1) % UINT32)
    case Sending(item) =>
      if s.out.closed then s.(panicked := true)
      else At(s, i, Signalling(Sent(item))).(out := Send(s.out, item), senders := s.senders + [i])
    case Signalling(outcome) =>
      if s.wg <= 0 then s.(panicked := true) else At(s, i, Releasing(outcome)).(wg := s.wg - 1)
    case Releasing(outcome) => At(s, i, Finished(outcome)).(held := s.held - 1)
  }

  predicate Enabled(cfg: Config, s: State, step: Step) {
    match step
    case MainStep => MainEnabled(cfg, s)
    case TaskStep(i, choice) => TaskEnabled(cfg, s, i, choice)
    case Monitor(m) => CanStep(s.out, m)
  }

  function Next(cfg: Config, s: State, step: Step): State
    requires Enabled(cfg, s, step)
  {
    match step
    case MainStep => NextMain(cfg, s)
    case TaskStep(i, choice) => NextTask(cfg, s, i, choice)
    case Monitor(m) => s.(out := Stepped(s.out, cfg.batchSize, m))
  }

  predicate Possible(cfg: Config, s: State, trace: seq<Step>)
    decreases |trace|
  {
    trace == [] || (Enabled(cfg, s, trace[0]) && Possible(cfg, Next(cfg, s, trace[0]), trace[1..]))
  }

  function After(cfg: Config, s: State, trace: seq<Step>): State
    requires Possible(cfg, s, trace)
    decreases |trace|
  {
    if trace == [] then s else After(cfg, Next(cfg, s, trace[0]), trace[1..])
  }

  /** The count of failed dispatches returned, and whether the run reports too many of them. */
  function Report(maxErrors: int, s: State): (nat, bool) {
    (s.failed, s.failed > maxErrors % UINT32)
  }
}
