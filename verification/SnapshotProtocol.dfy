/**
 store.go, saveToStore and aggregateRegionData: one run over one store as a small-step system. A step is one database
 call, one operation on the shared session map, or one semaphore or wait group operation, of any goroutine.
 */
module SnapshotProtocol {
  import opened Wrappers
  import opened Keys
  import opened Tables
  import opened RegionHistory
  import opened Aggregation

  /** The goroutine of one valid entry of one region. */
  datatype Task = Task(region: string, app: AppData) {
    function Session(): SessionKeys {
      app.Session()
    }

    function Row(): RegionKey {
      RegionKey(app.Session(), region)
    }
  }

  /** The tasks in the order in which the main goroutine starts them, whatever order the maps were ranged over in. */
  datatype Config = Config(tasks: seq<Task>, concurrency: nat)

  datatype Outcome = Kept | SessionLost(error: DbError) | RegionLost(error: DbError)

  datatype Pc =
    | Waiting
    | LoadingKey
    | ReadingSession
    | CreatingSession
    | StoringKey
    | ReadingRegion
    | CreatingRegion
    | UpdatingRegion(seen: RegionRow)
    | Returning(outcome: Outcome)
    | Signalling(outcome: Outcome)
    | Finished(outcome: Outcome)
  {
    predicate Holding() {
      !Waiting? && !Signalling? && !Finished?
    }

    predicate Past() {
      Returning? || Signalling? || Finished?
    }

    /** The snapshot has reached its region row. */
    predicate Persisted() {
      Past() && outcome.Kept?
    }

    predicate Dropped() {
      Past() && !outcome.Kept?
    }

    /** Found or created the session row, and still on the way to the region row or past it. */
    predicate Winning() {
      StoringKey? || ReadingRegion? || CreatingRegion? || UpdatingRegion? || Persisted()
    }

    predicate Racing() {
      CreatingSession? || Dropped()
    }
  }

  datatype AggPc =
    | AggWaiting
    | ReadingRegions
    | WritingSession(summary: Summary)
    | AggReturning(err: Option<DbError>)
    | AggSignalling(err: Option<DbError>)
    | AggFinished(err: Option<DbError>)
  {
    predicate Holding() {
      ReadingRegions? || WritingSession? || AggReturning?
    }

    predicate Past() {
      AggReturning? || AggSignalling? || AggFinished?
    }
  }

  datatype Phase = Collecting | Aggregating(touched: seq<SessionKeys>, aggs: seq<AggPc>) | Ended

  type History = map<RegionKey, seq<AppData>>

  /** `history` records, for the statements below only, the snapshots persisted to each region row, oldest first. */
  datatype State = State(
    tables: Tables,
    history: History,
    inStore: map<string, SessionKeys>,
    pcs: seq<Pc>,
    held: int,
    phase: Phase)

  /** A step of task `i`, the end of the first wait, a step of aggregation `j`, or the end of the second wait. */
  datatype Step =
    | TaskStep(i: nat)
    | Barrier(order: seq<string>)
    | AggStep(j: nat, names: seq<string>)
    | Finish

  function Printed(k: SessionKeys): string {
    SessionInStoreKey(k.publicKey, k.chain, k.sessionKey)
  }

  function HistAt(h: History, k: RegionKey): seq<AppData> {
    if k in h then h[k] else []
  }

  function Init(cfg: Config, tables: Tables, history: History): State {
    State(tables, history, map[], seq(|cfg.tasks|, _ => Waiting), 0, Collecting)
  }

  predicate AllFinished(pcs: seq<Pc>) {
    forall i | 0 <= i < |pcs| :: pcs[i].Finished?
  }

  predicate AllAggFinished(aggs: seq<AggPc>) {
    forall j | 0 <= j < |aggs| :: aggs[j].AggFinished?
  }

  predicate Enabled(cfg: Config, s: State, step: Step) {
    match step
    case TaskStep(i) =>
      && s.phase.Collecting? && i < |s.pcs| && i < |cfg.tasks|
      && !s.pcs[i].Finished?
      && (s.pcs[i].Waiting? ==> s.held < cfg.concurrency && forall j | 0 <= j < i :: !s.pcs[j].Waiting?)
    case Barrier(order) =>
      && s.phase.Collecting? && AllFinished(s.pcs)
      && Distinct(order) && (forall p | p in order :: p in s.inStore) && (forall p | p in s.inStore :: p in order)
    case AggStep(j, names) =>
      && s.phase.Aggregating? && j < |s.phase.aggs| && j < |s.phase.touched|
      && !s.phase.aggs[j].AggFinished?
      && (s.phase.aggs[j].AggWaiting? ==>
            s.held < cfg.concurrency && forall m | 0 <= m < j :: !s.phase.aggs[m].AggWaiting?)
      && (s.phase.aggs[j].ReadingRegions? ==> IsListing(s.tables.regions, s.phase.touched[j], names))
    case Finish =>
      s.phase.Aggregating? && AllAggFinished(s.phase.aggs)
  }

  function Next(cfg: Config, s: State, step: Step): State
    requires Enabled(cfg, s, step)
  {
    match step
    case TaskStep(i) => NextTask(cfg.tasks[i], s, i)
    case Barrier(order) =>
      var touched := seq(|order|, n requires 0 <= n < |order| => assert order[n] in order; s.inStore[order[n]]);
      s.(held := 0, phase := Aggregating(touched, seq(|order|, _ => AggWaiting)))
    case AggStep(j, names) => NextAgg(s, j, names)
    case Finish => s.(phase := Ended)
  }

  function At(s: State, i: nat, pc: Pc): State
    requires i < |s.pcs|
  {
    s.(pcs := s.pcs[i := pc])
  }

  function NextTask(t: Task, s: State, i: nat): State
    requires i < |s.pcs| && !s.pcs[i].Finished?
  {
    match s.pcs[i]
    case Waiting => At(s, i, LoadingKey).(held := s.held + 1)
    case LoadingKey => At(s, i, if Printed(t.Session()) in s.inStore then ReadingRegion else ReadingSession)
    case ReadingSession => At(s, i, if s.tables.GetSession(t.Session()).Success? then StoringKey else CreatingSession)
    case CreatingSession =>
      var (tables, err) := s.tables.CreateSession(t.Session(), NewSession(t.app));
      if err.Some? then At(s, i, Returning(SessionLost(err.value))) else At(s, i, StoringKey).(tables := tables)
    case StoringKey => At(s, i, ReadingRegion).(inStore := s.inStore[Printed(t.Session()) := t.Session()])
    case ReadingRegion =>
      var row := s.tables.GetRegion(t.Row());
      At(s, i, if row.Success? then UpdatingRegion(row.value) else CreatingRegion)
    case CreatingRegion => NextWrite(t, s, i, s.tables.CreateRegion(t.Row(), NewRegion(t.app)))
    case UpdatingRegion(seen) => NextWrite(t, s, i, s.tables.UpdateRegion(t.Row(), UpdateFor(seen, t.app)))
    case Returning(outcome) => At(s, i, Signalling(outcome)).(held := s.held - 1)
    case Signalling(outcome) => At(s, i, Finished(outcome))
  }

  function NextWrite(t: Task, s: State, i: nat, written: (Tables, Option<DbError>)): State
    requires i < |s.pcs|
  {
    if written.1.Some? then At(s, i, Returning(RegionLost(written.1.value)))
    else At(s, i, Returning(Kept)).(
        tables := written.0, history := s.history[t.Row() := HistAt(s.history, t.Row()) + [t.app]])
  }

  function AggAt(s: State, j: nat, pc: AggPc): State
    requires s.phase.Aggregating? && j < |s.phase.aggs|
  {
    s.(phase := s.phase.(aggs := s.phase.aggs[j := pc]))
  }

  function NextAgg(s: State, j: nat, names: seq<string>): State
    requires s.phase.Aggregating? && j < |s.phase.aggs| && j < |s.phase.touched| && !s.phase.aggs[j].AggFinished?
    requires s.phase.aggs[j].ReadingRegions? ==> IsListing(s.tables.regions, s.phase.touched[j], names)
  {
    var k := s.phase.touched[j];
    match s.phase.aggs[j]
    case AggWaiting => AggAt(s, j, ReadingRegions).(held := s.held + 1)
    case ReadingRegions => AggAt(s, j, WritingSession(Summarize(RowsOf(s.tables.regions, k, names))))
    case WritingSession(summary) =>
      var (tables, err) := s.tables.UpdateSession(k, summary);
      AggAt(s, j, AggReturning(err)).(tables := tables)
    case AggReturning(err) => AggAt(s, j, AggSignalling(err)).(held := s.held - 1)
    case AggSignalling(err) => AggAt(s, j, AggFinished(err))
  }

  /** Every step of the trace is enabled where it is taken. */
  predicate Possible(cfg: Config, s: State, trace: seq<Step>)
    decreases |trace|
  {
    trace == [] || (Enabled(cfg, s, trace[0]) && Possible(cfg, Next(cfg, s, trace[0]), trace[1..]))
  }

  function After(cfg: Config, s: State, trace: seq<Step>): State
    requires Possible(cfg, s, trace)
    decreases |trace|
  {
    if trace == [] then s else After(cfg, Next(cfg, s, trace[0]), trace[1..])
  }
}
