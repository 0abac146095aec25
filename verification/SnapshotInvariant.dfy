/** What every step of the first phase of a snapshot run keeps, in every interleaving. */
module SnapshotInvariant {
  import opened Wrappers
  import opened Text
  import opened Keys
  import opened Tables
  import opened RegionHistory
  import opened Counting
  import opened SnapshotProtocol

  /** Parsed keys are dash-free, and one run never has two entries for one region row. */
  ghost predicate WellFormed(cfg: Config) {
    && cfg.concurrency >= 1
    && (forall i | 0 <= i < |cfg.tasks| :: DashFree(cfg.tasks[i].Session()))
    && (forall i, j | 0 <= i < j < |cfg.tasks| :: cfg.tasks[i].Row() != cfg.tasks[j].Row())
  }

  predicate DashFree(k: SessionKeys) {
    Free('-', k.publicKey) && Free('-', k.chain)
  }

  /** Every region row is the replay of its history and refers to a session row. */
  ghost predicate LedgerOk(tables: Tables, history: History) {
    && (forall rk :: rk in tables.regions <==> rk in history)
    && (forall rk | rk in history :: |history[rk]| > 0 && tables.regions[rk] == Replay(history[rk]))
    && ReferencesOk(tables)
  }

  predicate IsHolding(pc: Pc) {
    pc.Holding()
  }

  ghost predicate SemaphoreOk(cfg: Config, s: State) {
    s.held == |Where(s.pcs, IsHolding)| && s.held <= cfg.concurrency
  }

  ghost predicate TaskOk(t: Task, pc: Pc, base: State, s: State) {
    && (pc.Winning() || pc.Dropped() ==> t.Session() in s.tables.sessions)
    && (pc.Winning() && !pc.StoringKey? ==> Printed(t.Session()) in s.inStore)
    && HistAt(s.history, t.Row()) == HistAt(base.history, t.Row()) + (if pc.Persisted() then [t.app] else [])
    && (pc.CreatingRegion? ==> t.Row() !in s.tables.regions)
    && (pc.UpdatingRegion? ==> t.Row() in s.tables.regions && s.tables.regions[t.Row()] == pc.seen)
    && (pc.Past() ==> pc.outcome == Kept || pc.outcome == SessionLost(Duplicate))
  }

  ghost predicate TasksOk(cfg: Config, base: State, s: State) {
    && |s.pcs| == |cfg.tasks|
    && forall i | 0 <= i < |s.pcs| :: TaskOk(cfg.tasks[i], s.pcs[i], base, s)
  }

  ghost predicate HasWinner(cfg: Config, s: State, k: SessionKeys) {
    exists i :: 0 <= i < |s.pcs| && i < |cfg.tasks| && cfg.tasks[i].Session() == k && s.pcs[i].Winning()
  }

  /** Every session row that is new since the start of the run has a winner. */
  ghost predicate WinnersOk(cfg: Config, base: State, s: State) {
    forall k | k in s.tables.sessions && k !in base.tables.sessions :: HasWinner(cfg, s, k)
  }

  ghost predicate SessionsOk(cfg: Config, base: State, s: State) {
    && (forall k | k in base.tables.sessions ::
          k in s.tables.sessions && s.tables.sessions[k] == base.tables.sessions[k])
    && WinnersOk(cfg, base, s)
  }

  ghost predicate StoreOk(s: State) {
    forall p | p in s.inStore ::
      Printed(s.inStore[p]) == p && DashFree(s.inStore[p]) && s.inStore[p] in s.tables.sessions
  }

  ghost predicate Owned(cfg: Config, rk: RegionKey) {
    exists i :: 0 <= i < |cfg.tasks| && cfg.tasks[i].Row() == rk
  }

  ghost predicate UnownedOk(cfg: Config, base: State, s: State) {
    forall rk | !Owned(cfg, rk) :: HistAt(s.history, rk) == HistAt(base.history, rk)
  }

  ghost predicate CollectInv(cfg: Config, base: State, s: State) {
    && s.phase.Collecting?
    && SemaphoreOk(cfg, s)
    && LedgerOk(s.tables, s.history)
    && TasksOk(cfg, base, s)
    && SessionsOk(cfg, base, s)
    && StoreOk(s)
    && UnownedOk(cfg, base, s)
  }

  lemma InitCollects(cfg: Config, tables: Tables, history: History)
    requires WellFormed(cfg) && LedgerOk(tables, history)
    ensures var s := Init(cfg, tables, history); CollectInv(cfg, s, s)
  {
    var s := Init(cfg, tables, history);
    assert Where(s.pcs, IsHolding) == {};
  }

  /** A task step moves one program counter and takes or gives back a unit exactly when that counter says so. */
  lemma StepShape(t: Task, s: State, i: nat)
    requires i < |s.pcs| && !s.pcs[i].Finished?
    ensures var s' := NextTask(t, s, i);
      && |s'.pcs| == |s.pcs| && s'.phase == s.phase
      && s'.pcs == s.pcs[i := s'.pcs[i]]
      && s'.held == s.held - (if s.pcs[i].Holding() then 1 else 0) + (if s'.pcs[i].Holding() then 1 else 0)
      && (s'.held > s.held ==> s.pcs[i].Waiting?)
  {
    var s' := NextTask(t, s, i);
    assert s'.pcs[i] == NextTask(t, s, i).pcs[i];
  }

  lemma SemaphoreKept(cfg: Config, s: State, i: nat)
    requires SemaphoreOk(cfg, s) && Enabled(cfg, s, TaskStep(i))
    ensures SemaphoreOk(cfg, Next(cfg, s, TaskStep(i)))
  {
    hide NextTask;
    var s' := NextTask(cfg.tasks[i], s, i);
    StepShape(cfg.tasks[i], s, i);
    WhereUpdate(s.pcs, i, s'.pcs[i], IsHolding);
  }

  /** The rows of other tasks are other rows, so a step that writes only its own row does not disturb them. */
  lemma Undisturbed(cfg: Config, base: State, s: State, s': State, i: nat, j: nat)
    requires WellFormed(cfg) && TasksOk(cfg, base, s) && i < |s.pcs| && j < |s.pcs| && i != j
    requires forall k | k in s.tables.sessions :: k in s'.tables.sessions
    requires forall p | p in s.inStore :: p in s'.inStore
    requires var rk := cfg.tasks[i].Row();
      forall r | r != rk ::
          (r in s'.tables.regions <==> r in s.tables.regions) && HistAt(s'.history, r) == HistAt(s.history, r)
    requires var rk := cfg.tasks[i].Row();
      forall r | r != rk && r in s.tables.regions :: s'.tables.regions[r] == s.tables.regions[r]
    ensures TaskOk(cfg.tasks[j], s.pcs[j], base, s')
  {
    assert cfg.tasks[j].Row() != cfg.tasks[i].Row();
    assert TaskOk(cfg.tasks[j], s.pcs[j], base, s);
  }

  ghost predicate Grows(s: State, s': State, rk: RegionKey) {
    && (forall k | k in s.tables.sessions :: k in s'.tables.sessions)
    && (forall p | p in s.inStore :: p in s'.inStore)
    && (forall r | r != rk ::
          (r in s'.tables.regions <==> r in s.tables.regions) && HistAt(s'.history, r) == HistAt(s.history, r))
    && (forall r | r != rk && r in s.tables.regions :: s'.tables.regions[r] == s.tables.regions[r])
  }

  /** Enough for the invariant on tasks: the mover is well, and nobody else's row changed. */
  lemma TasksKept(cfg: Config, base: State, s: State, s': State, i: nat)
    requires WellFormed(cfg) && TasksOk(cfg, base, s) && i < |s.pcs|
    requires |s'.pcs| == |s.pcs| && s'.pcs == s.pcs[i := s'.pcs[i]]
    requires TaskOk(cfg.tasks[i], s'.pcs[i], base, s')
    requires Grows(s, s', cfg.tasks[i].Row())
    ensures TasksOk(cfg, base, s')
  {
    forall j | 0 <= j < |s'.pcs| ensures TaskOk(cfg.tasks[j], s'.pcs[j], base, s') {
      if j != i {
        Undisturbed(cfg, base, s, s', i, j);
      }
    }
  }

  /** Sessions appear only through the mover, who is then a winner, and never change. */
  ghost predicate SessionsGrow(t: Task, s: State, s': State, i: nat)
    requires i < |s'.pcs|
  {
    && (forall k | k in s.tables.sessions :: k in s'.tables.sessions && s'.tables.sessions[k] == s.tables.sessions[k])
    && (forall k | k in s'.tables.sessions && k !in s.tables.sessions :: k == t.Session() && s'.pcs[i].Winning())
  }

  lemma SessionsKept(cfg: Config, base: State, s: State, s': State, i: nat)
    requires |s.pcs| == |s'.pcs| == |cfg.tasks| && SessionsOk(cfg, base, s) && i < |s.pcs|
    requires s'.pcs == s.pcs[i := s'.pcs[i]]
    requires s.pcs[i].Winning() ==> s'.pcs[i].Winning()
    requires SessionsGrow(cfg.tasks[i], s, s', i)
    ensures SessionsOk(cfg, base, s')
  {
    forall k | k in s'.tables.sessions && k !in base.tables.sessions ensures HasWinner(cfg, s', k) {
      if k in s.tables.sessions {
        var w :| 0 <= w < |s.pcs| && w < |cfg.tasks| && cfg.tasks[w].Session() == k && s.pcs[w].Winning();
        assert s'.pcs[w].Winning();
      } else {
        assert cfg.tasks[i].Session() == k && s'.pcs[i].Winning();
      }
    }
  }

  /** The invariant holds after a step of task `i` that does right by itself and touches nobody else's row. */
  lemma Assemble(cfg: Config, base: State, s: State, s': State, i: nat)
    requires WellFormed(cfg) && CollectInv(cfg, base, s) && i < |s.pcs|
    requires |s'.pcs| == |s.pcs| && s'.pcs == s.pcs[i := s'.pcs[i]] && s'.phase.Collecting?
    requires s.pcs[i].Winning() ==> s'.pcs[i].Winning()
    requires TaskOk(cfg.tasks[i], s'.pcs[i], base, s')
    requires Grows(s, s', cfg.tasks[i].Row()) && SessionsGrow(cfg.tasks[i], s, s', i)
    requires SemaphoreOk(cfg, s') && LedgerOk(s'.tables, s'.history) && StoreOk(s')
    ensures CollectInv(cfg, base, s')
  {
    TasksKept(cfg, base, s, s', i);
    SessionsKept(cfg, base, s, s', i);
    forall rk | !Owned(cfg, rk) ensures HistAt(s'.history, rk) == HistAt(base.history, rk) {
      assert rk != cfg.tasks[i].Row();
    }
  }

  lemma QuietKept(cfg: Config, base: State, s: State, s': State, i: nat)
    requires WellFormed(cfg) && CollectInv(cfg, base, s) && i < |s.pcs|
    requires s'.tables == s.tables && s'.history == s.history && s'.inStore == s.inStore && s'.phase.Collecting?
    requires |s'.pcs| == |s.pcs| && s'.pcs == s.pcs[i := s'.pcs[i]]
    requires s.pcs[i].Winning() ==> s'.pcs[i].Winning()
    requires TaskOk(cfg.tasks[i], s'.pcs[i], base, s') && SemaphoreOk(cfg, s')
    ensures CollectInv(cfg, base, s')
  {
    hide TaskOk, SemaphoreOk;
    Assemble(cfg, base, s, s', i);
  }

  /** The shared map names only sessions that are in the store, and a key names only one session. */
  lemma KeySeen(s: State, k: SessionKeys)
    requires StoreOk(s) && DashFree(k) && Printed(k) in s.inStore
    ensures s.inStore[Printed(k)] == k && k in s.tables.sessions
  {
    var k' := s.inStore[Printed(k)];
    SessionInStoreKeyInjective(k.publicKey, k.chain, k.sessionKey, k'.publicKey, k'.chain, k'.sessionKey);
  }

  predicate IsLocal(pc: Pc) {
    pc.Waiting? || pc.LoadingKey? || pc.ReadingSession? || pc.ReadingRegion? || pc.Returning? || pc.Signalling?
  }

  lemma LocalMoverOk(t: Task, base: State, s: State, i: nat)
    requires i < |s.pcs| && IsLocal(s.pcs[i]) && TaskOk(t, s.pcs[i], base, s) && StoreOk(s) && DashFree(t.Session())
    ensures var s' := NextTask(t, s, i);
      && TaskOk(t, s'.pcs[i], base, s')
      && (s.pcs[i].Winning() ==> s'.pcs[i].Winning())
      && s'.tables == s.tables && s'.history == s.history && s'.inStore == s.inStore
  {
    if s.pcs[i].LoadingKey? && Printed(t.Session()) in s.inStore {
      KeySeen(s, t.Session());
    }
  }

  /** Steps that touch neither the tables nor the shared map. */
  lemma LocalStepKept(cfg: Config, base: State, s: State, i: nat)
    requires WellFormed(cfg) && CollectInv(cfg, base, s) && Enabled(cfg, s, TaskStep(i)) && IsLocal(s.pcs[i])
    ensures CollectInv(cfg, base, Next(cfg, s, TaskStep(i)))
  {
    var t, s' := cfg.tasks[i], NextTask(cfg.tasks[i], s, i);
    StepShape(t, s, i);
    SemaphoreKept(cfg, s, i);
    LocalMoverOk(t, base, s, i);
    hide NextTask, TaskOk, StoreOk, LedgerOk, SessionsOk, UnownedOk, SemaphoreOk;
    QuietKept(cfg, base, s, s', i);
  }

  /** CreateSession either loses to a row that is there by now, or adds one for the mover. */
  lemma CreatingMoverOk(t: Task, base: State, s: State, i: nat)
    requires i < |s.pcs| && s.pcs[i].CreatingSession? && TaskOk(t, s.pcs[i], base, s)
    ensures var s' := NextTask(t, s, i);
      && TaskOk(t, s'.pcs[i], base, s')
      && SessionsGrow(t, s, s', i) && Grows(s, s', t.Row())
      && s'.tables.regions == s.tables.regions && s'.history == s.history && s'.inStore == s.inStore
  {
  }

  lemma MoreSessions(s: State, s': State)
    requires LedgerOk(s.tables, s.history) && StoreOk(s)
    requires s'.tables.regions == s.tables.regions && s'.history == s.history && s'.inStore == s.inStore
    requires forall k | k in s.tables.sessions :: k in s'.tables.sessions
    ensures LedgerOk(s'.tables, s'.history) && StoreOk(s')
  {
  }

  lemma CreatingSessionKept(cfg: Config, base: State, s: State, i: nat)
    requires WellFormed(cfg) && CollectInv(cfg, base, s) && Enabled(cfg, s, TaskStep(i))
    requires s.pcs[i].CreatingSession?
    ensures CollectInv(cfg, base, Next(cfg, s, TaskStep(i)))
  {
    var t, s' := cfg.tasks[i], NextTask(cfg.tasks[i], s, i);
    StepShape(t, s, i);
    SemaphoreKept(cfg, s, i);
    CreatingMoverOk(t, base, s, i);
    MoreSessions(s, s');
    hide NextTask, TaskOk, SessionsOk, UnownedOk, SemaphoreOk, LedgerOk, StoreOk;
    Assemble(cfg, base, s, s', i);
  }

  lemma StoringKeyKept(cfg: Config, base: State, s: State, i: nat)
    requires WellFormed(cfg) && CollectInv(cfg, base, s) && Enabled(cfg, s, TaskStep(i))
    requires s.pcs[i].StoringKey?
    ensures CollectInv(cfg, base, Next(cfg, s, TaskStep(i)))
  {
    var t, s' := cfg.tasks[i], NextTask(cfg.tasks[i], s, i);
    StepShape(t, s, i);
    SemaphoreKept(cfg, s, i);
    assert TaskOk(t, s.pcs[i], base, s);
    Assemble(cfg, base, s, s', i);
  }

  /** Writing the region row succeeds, and appends this task's snapshot to what the row records. */
  lemma WriteKept(cfg: Config, base: State, s: State, i: nat)
    requires WellFormed(cfg) && CollectInv(cfg, base, s) && Enabled(cfg, s, TaskStep(i))
    requires s.pcs[i].CreatingRegion? || s.pcs[i].UpdatingRegion?
    ensures CollectInv(cfg, base, Next(cfg, s, TaskStep(i)))
    ensures Next(cfg, s, TaskStep(i)).pcs[i] == Returning(Kept)
  {
    var t, s' := cfg.tasks[i], NextTask(cfg.tasks[i], s, i);
    StepShape(t, s, i);
    SemaphoreKept(cfg, s, i);
    assert TaskOk(t, s.pcs[i], base, s);
    WriteIsReplay(t, s, i);
    LedgerGrows(s, t, s'.tables);
    WriterOk(t, base, s, s', i, Replay(HistAt(s.history, t.Row()) + [t.app]));
    hide NextTask, TaskOk, SessionsOk, UnownedOk, SemaphoreOk, LedgerOk;
    Assemble(cfg, base, s, s', i);
  }

  lemma WriterOk(t: Task, base: State, s: State, s': State, i: nat, row: RegionRow)
    requires i < |s.pcs| && !s.pcs[i].Past() && s.pcs[i].Winning() && !s.pcs[i].StoringKey?
    requires TaskOk(t, s.pcs[i], base, s)
    requires s' == At(s, i, Returning(Kept)).(
      tables := s.tables.(regions := s.tables.regions[t.Row() := row]),
      history := s.history[t.Row() := HistAt(s.history, t.Row()) + [t.app]])
    ensures TaskOk(t, s'.pcs[i], base, s') && SessionsGrow(t, s, s', i) && Grows(s, s', t.Row())
  {
  }

  lemma WriteIsReplay(t: Task, s: State, i: nat)
    requires i < |s.pcs| && LedgerOk(s.tables, s.history)
    requires t.Session() in s.tables.sessions
    requires var pc := s.pcs[i];
      || (pc.CreatingRegion? && t.Row() !in s.tables.regions)
      || (pc.UpdatingRegion? && t.Row() in s.tables.regions && pc.seen == s.tables.regions[t.Row()])
    ensures var snaps := HistAt(s.history, t.Row());
      NextTask(t, s, i) == At(s, i, Returning(Kept)).(
        tables := s.tables.(regions := s.tables.regions[t.Row() := Replay(snaps + [t.app])]),
        history := s.history[t.Row() := snaps + [t.app]])
  {
    var snaps := HistAt(s.history, t.Row());
    var tables := s.tables.(regions := s.tables.regions[t.Row() := Replay(snaps + [t.app])]);
    if s.pcs[i].CreatingRegion? {
      assert s.tables.CreateRegion(t.Row(), NewRegion(t.app)) == (tables, None) by {
        CreateIsReplay(t.app);
        assert snaps + [t.app] == [t.app];
      }
      hide Replay, NewRegion;
      assert NextTask(t, s, i) == NextWrite(t, s, i, (tables, None));
    } else {
      assert s.tables.UpdateRegion(t.Row(), UpdateFor(s.pcs[i].seen, t.app)) == (tables, None) by {
        UpdateIsReplay(s.tables, t.Row(), snaps, t.app);
      }
      hide Replay, UpdateFor;
      assert NextTask(t, s, i) == NextWrite(t, s, i, (tables, None));
    }
  }

  lemma LedgerGrows(s: State, t: Task, tables: Tables)
    requires LedgerOk(s.tables, s.history) && t.Session() in s.tables.sessions
    requires tables == s.tables.(
      regions := s.tables.regions[t.Row() := Replay(HistAt(s.history, t.Row()) + [t.app])])
    ensures LedgerOk(tables, s.history[t.Row() := HistAt(s.history, t.Row()) + [t.app]])
  {
  }

  /** Every step of the first phase keeps the invariant. */
  lemma TaskStepKept(cfg: Config, base: State, s: State, i: nat)
    requires WellFormed(cfg) && CollectInv(cfg, base, s) && Enabled(cfg, s, TaskStep(i))
    ensures CollectInv(cfg, base, Next(cfg, s, TaskStep(i)))
  {
    hide Next, CollectInv;
    match s.pcs[i]
    case CreatingSession => CreatingSessionKept(cfg, base, s, i);
    case StoringKey => StoringKeyKept(cfg, base, s, i);
    case CreatingRegion => WriteKept(cfg, base, s, i);
    case UpdatingRegion(_) => WriteKept(cfg, base, s, i);
    case _ => LocalStepKept(cfg, base, s, i);
  }
}
