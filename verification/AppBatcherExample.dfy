/**
 Two runs that end with a submission never checked: one of two tasks gets no session, so the batch of two never fills;
 or both submit, but for the same application, so the second supersedes the first.
 */
module AppBatcherExample {
  import opened AppBatcher
  import opened AppBatcherTokens
  import opened AppBatcherBatches
  import opened AppBatcherRun

  predicate Same(s: State, t: State) {
    && s.pcs == t.pcs && s.waits == t.waits && s.submitted == t.submitted && s.batch == t.batch
    && s.checks == t.checks && s.superseded == t.superseded && s.flushed == t.flushed
    && t == s.(pcs := t.pcs, waits := t.waits, submitted := t.submitted, batch := t.batch, checks := t.checks,
               superseded := t.superseded, flushed := t.flushed)
  }

  lemma Reach(cfg: Config, s: State, step: Step, t: State)
    requires Reached(cfg, s) && Enabled(cfg, s, step) && Same(Next(cfg, s, step), t)
    ensures Reached(cfg, t)
  {
    hide Reached;
    ReachNext(cfg, s, step);
  }

  function Two(): Config {
    Config(2, 1, 2)
  }

  /** The first task at `pc`, its wait group at `wait`, nothing flushed. */
  function Early(
    pc: Pc, wait: int, submitted: seq<Submission>, processed: nat, mon: Monitor, batch: map<string, nat>): State
  {
    State(Spawning, 1, 1, 1, [pc, Waiting], [wait, 0], submitted, processed, mon, batch, [], false, false,
      {}, map[], {})
  }

  /** Later: the one submission waits in the batch for company. */
  function Kept(main: Main, next: nat, held: int, wg: int, pcs: seq<Pc>): State {
    State(main, next, held, wg, pcs, [0, 0], [Submission(0, "a", false)], 1, Idle, map["a" := 0], [],
      main.Closed?, false, {}, map[], {})
  }

  lemma FirstSubmits()
    ensures Reached(Two(), Early(Blocked, 1, [Submission(0, "a", false)], 0, Idle, map[]))
  {
    var cfg, sub := Two(), Submission(0, "a", false);
    ReachStart(cfg);
    hide Reached;
    var s1, s2 := Early(GettingSession, 0, [], 0, Idle, map[]), Early(Submitting(sub), 1, [], 0, Idle, map[]);
    Reach(cfg, Init(cfg), MainStep, s1);
    Reach(cfg, s1, TaskStep(0, Session("a", false)), s2);
    Reach(cfg, s2, TaskStep(0, NoSession), Early(Blocked, 1, [sub], 0, Idle, map[]));
  }

  lemma FirstIsKept()
    ensures Reached(Two(), Kept(Spawning, 1, 1, 1, [Blocked, Waiting]))
  {
    FirstSubmits();
    hide Reached;
    var cfg, sub := Two(), Submission(0, "a", false);
    var s := Early(Blocked, 1, [sub], 1, Deciding, map["a" := 0]);
    Reach(cfg, Early(Blocked, 1, [sub], 0, Idle, map[]), Receive, s);
    Reach(cfg, s, Decide(0), Kept(Spawning, 1, 1, 1, [Blocked, Waiting]));
  }

  lemma FirstFinishes()
    ensures Reached(Two(), Kept(Spawning, 1, 0, 0, [Finished, Waiting]))
  {
    FirstIsKept();
    hide Reached;
    var cfg, step := Two(), TaskStep(0, NoSession);
    var s1, s2 := Kept(Spawning, 1, 1, 1, [Releasing, Waiting]), Kept(Spawning, 1, 0, 1, [Signalling, Waiting]);
    Reach(cfg, Kept(Spawning, 1, 1, 1, [Blocked, Waiting]), step, s1);
    Reach(cfg, s1, step, s2);
    Reach(cfg, s2, step, Kept(Spawning, 1, 0, 0, [Finished, Waiting]));
  }

  lemma SecondGetsNoSession()
    ensures Reached(Two(), Kept(Spawning, 2, 0, 0, [Finished, Finished]))
  {
    FirstFinishes();
    hide Reached;
    var cfg, step := Two(), TaskStep(1, NoSession);
    var s1, s2 := Kept(Spawning, 2, 1, 1, [Finished, GettingSession]), Kept(Spawning, 2, 1, 1, [Finished, Releasing]);
    var s3 := Kept(Spawning, 2, 0, 1, [Finished, Signalling]);
    Reach(cfg, Kept(Spawning, 1, 0, 0, [Finished, Waiting]), MainStep, s1);
    Reach(cfg, s1, step, s2);
    Reach(cfg, s2, step, s3);
    Reach(cfg, s3, step, Kept(Spawning, 2, 0, 0, [Finished, Finished]));
  }

  /** The run has returned; the application with a session sits in a batch that nobody will flush. */
  lemma NeverChecked() returns (s: State)
    ensures WellFormed(Two()) && Reached(Two(), s) && s.main.Closed?
    ensures s.checks == [] && "a" in s.batch && forall step :: !Enabled(Two(), s, step)
  {
    SecondGetsNoSession();
    hide Reached;
    var cfg, done := Two(), [Finished, Finished];
    var s1, s2 := Kept(WaitingTasks, 2, 0, 0, done), Kept(Closing, 2, 0, 0, done);
    s := Kept(Closed, 2, 0, 0, [Finished, Finished]);
    Reach(cfg, Kept(Spawning, 2, 0, 0, [Finished, Finished]), MainStep, s1);
    Reach(cfg, s1, MainStep, s2);
    Reach(cfg, s2, MainStep, s);
    forall step ensures !Enabled(cfg, s, step) {
    }
  }

  /** The second task's turn, with its own submission for the same application. */
  function Second(
    pc: Pc, wait: int, submitted: seq<Submission>, processed: nat, mon: Monitor, at: nat, superseded: map<nat, nat>
  ): State {
    State(Spawning, 2, 1, 1, [Finished, pc], [0, wait], submitted, processed, mon, map["a" := at], [], false, false,
      {}, superseded, {})
  }

  /** The second submission has been flushed alone. */
  function Alone(main: Main, held: int, wg: int, pc: Pc, wait: int, running: bool): State {
    State(main, 2, held, wg, [Finished, pc], [0, wait], [Submission(0, "a", false), Submission(1, "a", false)], 2, Idle,
      map[], [Check(1, map["a" := 1], running, 0)], main.Closed?, false, {1}, map[0 := 1], {})
  }

  lemma SecondSubmits()
    ensures
      var both := [Submission(0, "a", false), Submission(1, "a", false)];
      Reached(Two(), Second(Blocked, 1, both, 1, Idle, 0, map[]))
  {
    FirstFinishes();
    hide Reached;
    var cfg, first, second := Two(), Submission(0, "a", false), Submission(1, "a", false);
    var s1 := Second(GettingSession, 0, [first], 1, Idle, 0, map[]);
    var s2 := Second(Submitting(second), 1, [first], 1, Idle, 0, map[]);
    Reach(cfg, Kept(Spawning, 1, 0, 0, [Finished, Waiting]), MainStep, s1);
    Reach(cfg, s1, TaskStep(1, Session("a", false)), s2);
    Reach(cfg, s2, TaskStep(1, NoSession), Second(Blocked, 1, [first, second], 1, Idle, 0, map[]));
  }

  lemma SecondIsFlushed()
    ensures Reached(Two(), Alone(Spawning, 1, 1, Blocked, 1, true))
  {
    SecondSubmits();
    hide Reached;
    var cfg, both := Two(), [Submission(0, "a", false), Submission(1, "a", false)];
    var s := Second(Blocked, 1, both, 2, Deciding, 1, map[0 := 1]);
    Reach(cfg, Second(Blocked, 1, both, 1, Idle, 0, map[]), Receive, s);
    assert map["a" := 1].Values == {1} by {
      assert map["a" := 1]["a"] == 1;
    }
    Reach(cfg, s, Decide(0), Alone(Spawning, 1, 1, Blocked, 1, true));
  }

  lemma SecondFinishes()
    ensures Reached(Two(), Alone(Spawning, 0, 0, Finished, 0, false))
  {
    SecondIsFlushed();
    hide Reached;
    var cfg, step := Two(), TaskStep(1, NoSession);
    var s1, s2 := Alone(Spawning, 1, 1, Blocked, 0, false), Alone(Spawning, 1, 1, Releasing, 0, false);
    var s3 := Alone(Spawning, 0, 1, Signalling, 0, false);
    Reach(cfg, Alone(Spawning, 1, 1, Blocked, 1, true), CheckDone(0), s1);
    Reach(cfg, s1, step, s2);
    Reach(cfg, s2, step, s3);
    Reach(cfg, s3, step, Alone(Spawning, 0, 0, Finished, 0, false));
  }

  /** Both have submitted and the batch is empty, but nobody has checked, or will check, the first submission. */
  lemma SupersededNeverChecked() returns (s: State)
    ensures WellFormed(Two()) && Reached(Two(), s) && s.main.Closed?
    ensures |s.submitted| == Two().totalApps && s.batch == map[] && !s.submitted[0].invalid && !Checked(s, 0)
    ensures forall step :: !Enabled(Two(), s, step)
  {
    SecondFinishes();
    hide Reached;
    var cfg, s0 := Two(), Alone(Spawning, 0, 0, Finished, 0, false);
    var s1, s2 := Alone(WaitingTasks, 0, 0, Finished, 0, false), Alone(Closing, 0, 0, Finished, 0, false);
    s := Alone(Closed, 0, 0, Finished, 0, false);
    Reach(cfg, s0, MainStep, s1);
    Reach(cfg, s1, MainStep, s2);
    Reach(cfg, s2, MainStep, s);
    forall step ensures !Enabled(cfg, s, step) {
    }
  }
}
