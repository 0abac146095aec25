/** Which entries of one session the first phase of a snapshot run drops, and how many. */
module SnapshotLosses {
  import opened Tables
  import opened Counting
  import opened SnapshotProtocol
  import opened SnapshotInvariant

  /** Tasks of session `k` that read NotFound and have not created the row, now or ever. */
  ghost function Racers(cfg: Config, s: State, k: SessionKeys): set<nat> {
    set i: nat | i < |s.pcs| && i < |cfg.tasks| && cfg.tasks[i].Session() == k && s.pcs[i].Racing()
  }

  ghost function DroppedOf(cfg: Config, s: State, k: SessionKeys): set<nat> {
    set i: nat | i < |s.pcs| && i < |cfg.tasks| && cfg.tasks[i].Session() == k && s.pcs[i].Dropped()
  }

  ghost predicate LossInv(cfg: Config, base: State, s: State, k: SessionKeys) {
    && (k in base.tables.sessions ==> k in s.tables.sessions && Racers(cfg, s, k) == {})
    && (k !in s.tables.sessions ==> DroppedOf(cfg, s, k) == {})
    && (k in s.tables.sessions ==> |Racers(cfg, s, k)| < cfg.concurrency)
  }

  lemma InitHasNoLosses(cfg: Config, tables: Tables, history: History, k: SessionKeys)
    requires WellFormed(cfg)
    ensures var s := Init(cfg, tables, history); LossInv(cfg, s, s, k)
  {
    var s := Init(cfg, tables, history);
    assert Racers(cfg, s, k) == {};
    assert DroppedOf(cfg, s, k) == {};
  }

  /** While the row is missing, the racers are all inside the semaphore. */
  lemma RacersHoldUnits(cfg: Config, s: State, k: SessionKeys)
    requires SemaphoreOk(cfg, s) && DroppedOf(cfg, s, k) == {}
    ensures |Racers(cfg, s, k)| <= cfg.concurrency
  {
    forall i | i in Racers(cfg, s, k) ensures i in Where(s.pcs, IsHolding) {
      assert i !in DroppedOf(cfg, s, k);
    }
    SubsetSize(Racers(cfg, s, k), Where(s.pcs, IsHolding));
  }

  /** A step changes who races only by entering the race or by winning it. */
  lemma RaceMoves(cfg: Config, s: State, i: nat, k: SessionKeys)
    requires Enabled(cfg, s, TaskStep(i)) && |s.pcs| == |cfg.tasks|
    ensures var s', mine := Next(cfg, s, TaskStep(i)), cfg.tasks[i].Session() == k;
      && Racers(cfg, s', k) == (if mine && s'.pcs[i].Racing() then Racers(cfg, s, k) + {i} else Racers(cfg, s, k) - {i})
      && DroppedOf(cfg, s', k) ==
         if mine && s'.pcs[i].Dropped() then DroppedOf(cfg, s, k) + {i} else DroppedOf(cfg, s, k) - {i}
  {
    StepShape(cfg.tasks[i], s, i);
    hide NextTask;
  }

  /** How the mover's own race goes on. */
  lemma MoverRaces(t: Task, s: State, i: nat)
    requires i < |s.pcs| && !s.pcs[i].Finished?
    ensures var s', k := NextTask(t, s, i), t.Session();
      && (s'.pcs[i].Racing() && !s.pcs[i].Racing() ==>
            || (k !in s.tables.sessions && s'.pcs[i].CreatingSession?)
            || s.pcs[i].CreatingRegion? || s.pcs[i].UpdatingRegion?)
      && (s'.pcs[i].Dropped() ==>
          k in s.tables.sessions || s.pcs[i].Dropped() || s.pcs[i].CreatingRegion? || s.pcs[i].UpdatingRegion?)
      && (forall q | q in s'.tables.sessions && q !in s.tables.sessions ::
            q == k && s.pcs[i].CreatingSession? && s'.pcs[i].StoringKey?)
      && (forall q | q in s.tables.sessions :: q in s'.tables.sessions)
  {
  }

  /** Within the invariant, entering or losing the race means exactly this for the session table. */
  lemma RaceRules(cfg: Config, base: State, s: State, i: nat)
    requires WellFormed(cfg) && CollectInv(cfg, base, s) && Enabled(cfg, s, TaskStep(i))
    ensures var s', k := NextTask(cfg.tasks[i], s, i), cfg.tasks[i].Session();
      && |s'.pcs| == |s.pcs|
      && (s'.pcs[i].Racing() && !s.pcs[i].Racing() ==> k !in s.tables.sessions && s'.pcs[i].CreatingSession?)
      && (s'.pcs[i].Dropped() ==> k in s.tables.sessions || s.pcs[i].Dropped())
  {
    MoverRaces(cfg.tasks[i], s, i);
    if s.pcs[i].CreatingRegion? || s.pcs[i].UpdatingRegion? {
      WriteKept(cfg, base, s, i);
      hide NextTask, CollectInv;
    } else {
      StepShape(cfg.tasks[i], s, i);
      hide NextTask, CollectInv;
    }
  }

  /** Every step of the first phase keeps the account of losses of every session. */
  lemma LossesKept(cfg: Config, base: State, s: State, i: nat, k: SessionKeys)
    requires WellFormed(cfg) && CollectInv(cfg, base, s) && Enabled(cfg, s, TaskStep(i)) && LossInv(cfg, base, s, k)
    ensures LossInv(cfg, base, Next(cfg, s, TaskStep(i)), k)
  {
    assert SemaphoreOk(cfg, s) && |s.pcs| == |cfg.tasks|;
    hide NextTask, CollectInv, LossInv, SemaphoreOk, Racers, DroppedOf;
    RaceMoves(cfg, s, i, k);
    MoverRaces(cfg.tasks[i], s, i);
    RaceRules(cfg, base, s, i);
    if k !in s.tables.sessions {
      NoneDroppedYet(cfg, base, s, k);
      RacersHoldUnits(cfg, s, k);
    }
    LossArithmetic(cfg, base, s, NextTask(cfg.tasks[i], s, i), i, k);
  }

  lemma NoneDroppedYet(cfg: Config, base: State, s: State, k: SessionKeys)
    requires LossInv(cfg, base, s, k) && k !in s.tables.sessions
    ensures DroppedOf(cfg, s, k) == {}
  {
  }

  lemma LossArithmetic(cfg: Config, base: State, s: State, s': State, i: nat, k: SessionKeys)
    requires i < |s.pcs| == |s'.pcs| == |cfg.tasks| && LossInv(cfg, base, s, k)
    requires var mine := cfg.tasks[i].Session() == k;
      && Racers(cfg, s', k) == (if mine && s'.pcs[i].Racing() then Racers(cfg, s, k) + {i} else Racers(cfg, s, k) - {i})
      && DroppedOf(cfg, s', k) ==
         if mine && s'.pcs[i].Dropped() then DroppedOf(cfg, s, k) + {i} else DroppedOf(cfg, s, k) - {i}
    requires forall q | q in s.tables.sessions :: q in s'.tables.sessions
    requires k in s'.tables.sessions && k !in s.tables.sessions ==>
      cfg.tasks[i].Session() == k && s.pcs[i].CreatingSession? && s'.pcs[i].StoringKey?
    requires cfg.tasks[i].Session() == k && s'.pcs[i].Racing() && !s.pcs[i].Racing() ==>
      k !in s.tables.sessions && s'.pcs[i].CreatingSession?
    requires cfg.tasks[i].Session() == k && s'.pcs[i].Dropped() ==> k in s.tables.sessions || s.pcs[i].Dropped()
    requires k !in s.tables.sessions ==> |Racers(cfg, s, k)| <= cfg.concurrency
    ensures LossInv(cfg, base, s', k)
  {
    var mine := cfg.tasks[i].Session() == k;
    var a, b := Racers(cfg, s, k), Racers(cfg, s', k);
    assert i in a <==> mine && s.pcs[i].Racing();
    if k in s.tables.sessions {
      assert b <= a;
      SubsetSize(b, a);
    } else if k in s'.tables.sessions {
      assert b == a - {i};
    }
  }

  /**
   The losses of one run, once all tasks are done: at most `concurrency - 1` entries of a session are dropped, each by a
   duplicate CreateSession, none when the row was there before the run, and never all of them.
   */
  lemma LossesAtEnd(cfg: Config, base: State, s: State, k: SessionKeys)
    requires WellFormed(cfg) && TasksOk(cfg, base, s) && WinnersOk(cfg, base, s)
    requires forall q | q in base.tables.sessions :: q in s.tables.sessions
    requires LossInv(cfg, base, s, k) && AllFinished(s.pcs)
    ensures |DroppedOf(cfg, s, k)| <= cfg.concurrency - 1
    ensures forall i | i in DroppedOf(cfg, s, k) :: s.pcs[i] == Finished(SessionLost(Duplicate))
    ensures k in base.tables.sessions ==> DroppedOf(cfg, s, k) == {}
    ensures (exists i: nat :: i < |cfg.tasks| && cfg.tasks[i].Session() == k) ==>
      exists i: nat :: i < |s.pcs| && i < |cfg.tasks| && cfg.tasks[i].Session() == k && s.pcs[i] == Finished(Kept)
  {
    assert DroppedOf(cfg, s, k) <= Racers(cfg, s, k);
    SubsetSize(DroppedOf(cfg, s, k), Racers(cfg, s, k));
    forall i | i in DroppedOf(cfg, s, k)
      ensures s.pcs[i] == Finished(SessionLost(Duplicate)) && k in s.tables.sessions
    {
      assert TaskOk(cfg.tasks[i], s.pcs[i], base, s);
    }
    if i: nat :| i < |cfg.tasks| && cfg.tasks[i].Session() == k {
      SomeoneKept(cfg, base, s, k, i);
    }
  }

  lemma SomeoneKept(cfg: Config, base: State, s: State, k: SessionKeys, i: nat)
    requires TasksOk(cfg, base, s) && WinnersOk(cfg, base, s) && LossInv(cfg, base, s, k) && AllFinished(s.pcs)
    requires i < |cfg.tasks| && cfg.tasks[i].Session() == k
    ensures exists w: nat :: w < |s.pcs| && w < |cfg.tasks| && cfg.tasks[w].Session() == k && s.pcs[w] == Finished(Kept)
  {
    assert TaskOk(cfg.tasks[i], s.pcs[i], base, s);
    if s.pcs[i] != Finished(Kept) {
      assert i in Racers(cfg, s, k);
      assert HasWinner(cfg, s, k);
      var w: nat :| w < |s.pcs| && w < |cfg.tasks| && cfg.tasks[w].Session() == k && s.pcs[w].Winning();
      assert s.pcs[w] == Finished(Kept);
    }
  }
}
