/** Reachable runs of the system in which the promises fail that hold otherwise: the internal acquisition takes the
    lock of a running action, a status change forgets a waiting wait, a lost runner strands a waiting run. */
module ReachableFailures {
  import opened Common
  import opened Records
  import opened InvestigationGraph
  import opened ActionInvariants
  import opened RunInvariants
  import opened System
  import opened Exclusion
  import ActionSteps
  import Investigations
  import LeaseMargins
  import RunHistory
  import RunnerTasks
  import RunSteps
  import TaskCoupling
  import TaskSteps

  // ----- A lock taken from a running action ----------------------------------------------------------------

  /** The first of two actions on a resource runs; when its lock has expired, the second acquires it outside
      dispatch. */
  function Takeover(cfg: Settings): seq<Step> {
    LeaseMargins.Race(cfg)[..4] + [OnAction(ActionSteps.AcquireLock(1, true, cfg.lockLease))]
  }

  /** Whatever the leases, cover or not, the internal acquisition reaches a state without exclusion. */
  lemma TakeoverIsReachable(cfg: Settings)
    ensures var steps := Takeover(cfg);
            && Exclusion.TakesOver(At(cfg, steps, 4), steps[4]) && !AllHold(State(cfg, steps))
  {
    hide State, Inv, AllHold, Next, LeaseMargins.FirstRuns, TakesOver;
    var steps, race := Takeover(cfg), LeaseMargins.Race(cfg);
    LeaseMargins.FirstRunsAfterAll(cfg);
    assert steps[..4] == race[..4] && steps[..5] == steps;
    IsATakeover(cfg);
    AtNext(cfg, steps, 4);
    Reachable(cfg, steps[..4]);
    TakeoverDispossesses(cfg, At(cfg, steps, 4), steps[4]);
  }

  lemma IsATakeover(cfg: Settings)
    ensures TakesOver(LeaseMargins.FirstRuns(cfg), OnAction(ActionSteps.AcquireLock(1, true, cfg.lockLease)))
  {
  }

  // ----- A run that waits for a task -----------------------------------------------------------------------

  const CHECKPOINT := Content(LoadIncident, 0, [Key(LoadIncident, 0)], 0, true, Pause, 0, 0, 0, 0)
  const WAIT := ObservationWait(0, 0)

  /** A worker claims a run, and the checkpoint of a node pauses it for a task with one attempt. */
  function Waiting(): seq<Step> {
    [OnRun(RunSteps.Create(0, GraphV1, 1, 0)),
     OnRun(RunSteps.Claim(0, Some(0), 0)),
     OnRun(RunSteps.ExecutorWrite(0, 0, 0, CHECKPOINT, true, Investigations.Observation(0, 0, true, 1)))]
  }

  function NewRun(): Run {
    Run(GraphV1, RunQueued, None, None, 1, 1, 0, 0, 0, 0, 0, 0, [], None)
  }

  function ClaimedRun(cfg: Settings): Run {
    NewRun().(status := RunRunning, owner := Some(0), lease := Some(cfg.runLease), version := 2, claimant := Some(0))
  }

  function PausedRun(): Run {
    NewRun().(status := RunPaused, version := 4, sequence := 1, claimant := Some(0),
              log := [CheckpointRow(0, 1, CHECKPOINT, Some(0))])
  }

  /** The tables once the run waits. */
  function Waits(): Db {
    EMPTY.(
      runs := map[0 := PausedRun()],
      waits := map[WAIT := Wait(Records.Waiting, 0, Some(0))],
      tasks := map[0 := Task(Some(0), None, Some(WAIT), None, TaskQueued, 0, 1, None, None, None)])
  }

  lemma PausesTheRun(cfg: Settings)
    ensures var db := EMPTY.(runs := map[0 := ClaimedRun(cfg)]);
            Next(cfg, db, Waiting()[2]) == Waits()
  {
    hide Investigations.HasDuplicate;
    OneKey(CHECKPOINT.completed);
    assert [] + [CheckpointRow(0, 1, CHECKPOINT, Some(0))] == [CheckpointRow(0, 1, CHECKPOINT, Some(0))];
  }

  lemma OneKey(keys: seq<Key>)
    requires |keys| == 1
    ensures !Investigations.HasDuplicate(keys)
  {
  }

  lemma RunWaits(cfg: Settings)
    ensures State(cfg, Waiting()) == Waits()
  {
    hide Next, State, Waits;
    var steps := Waiting();
    Starts(cfg);
    Creates(cfg);
    ClaimsTheRun(cfg);
    PausesTheRun(cfg);
    AtNext(cfg, steps, 0);
    AtNext(cfg, steps, 1);
    AtNext(cfg, steps, 2);
    assert steps[..3] == steps;
  }

  lemma Starts(cfg: Settings)
    ensures At(cfg, Waiting(), 0) == EMPTY
  {
  }

  lemma Creates(cfg: Settings)
    ensures Next(cfg, EMPTY, Waiting()[0]) == EMPTY.(runs := map[0 := NewRun()])
  {
  }

  lemma ClaimsTheRun(cfg: Settings)
    ensures Next(cfg, EMPTY.(runs := map[0 := NewRun()]), Waiting()[1]) == EMPTY.(runs := map[0 := ClaimedRun(cfg)])
  {
  }

  /** Somebody moves the waiting run back to running: the wait is still waiting for it. */
  lemma ForgottenWaitIsReachable(cfg: Settings)
    ensures var steps := Waiting() + [OnRun(RunSteps.Transition(0, 4, RunRunning))];
            && RunHistory.Uncouples(At(cfg, steps, 3), steps[3]) && !Coupled(State(cfg, steps))
  {
    hide State, Next;
    var steps := Waiting() + [OnRun(RunSteps.Transition(0, 4, RunRunning))];
    assert steps[..3] == Waiting() && steps[..4] == steps;
    RunWaits(cfg);
    AtNext(cfg, steps, 3);
    Forgets(cfg);
  }

  lemma Forgets(cfg: Settings)
    ensures var s := OnRun(RunSteps.Transition(0, 4, RunRunning));
            RunHistory.Uncouples(Waits(), s) && !Coupled(Next(cfg, Waits(), s))
  {
    var s := OnRun(RunSteps.Transition(0, 4, RunRunning));
    assert Investigations.WaitsForRun(Waits(), WAIT, 0);
    var db' := Next(cfg, Waits(), s);
    assert WAIT in db'.waits && !WaitOk(db', WAIT);
  }

  /** A runner leases the task and is declared lost: the task has no attempt left and fails, and the run goes on
      waiting for it. */
  lemma StrandedRunIsReachable(cfg: Settings)
    ensures var steps := Waiting() + [OnTask(TaskSteps.Claim(0, 0, [], Some(0), 0)),
                                      OnTask(TaskSteps.LoseRunner(0, [0], 0))];
            && RunHistory.Uncouples(At(cfg, steps, 4), steps[4]) && !Coupled(State(cfg, steps))
  {
    hide State, Next;
    var steps := Waiting() + [OnTask(TaskSteps.Claim(0, 0, [], Some(0), 0)), OnTask(TaskSteps.LoseRunner(0, [0], 0))];
    assert steps[..3] == Waiting() && steps[..5] == steps;
    RunWaits(cfg);
    AtNext(cfg, steps, 3);
    AtNext(cfg, steps, 4);
    Leases(cfg);
    Strands(cfg);
  }

  function LeasedTask(cfg: Settings): Db {
    Waits().(tasks := map[0 := RunnerTasks.Leased(cfg, Waits().tasks[0], 0, 0, 0)])
  }

  lemma Leases(cfg: Settings)
    ensures Next(cfg, Waits(), OnTask(TaskSteps.Claim(0, 0, [], Some(0), 0))) == LeasedTask(cfg)
  {
    assert !RunnerTasks.HasLeased(Waits(), 0);
    assert Waits().tasks[0 := LeasedTask(cfg).tasks[0]] == LeasedTask(cfg).tasks;
  }

  lemma Strands(cfg: Settings)
    ensures var s := OnTask(TaskSteps.LoseRunner(0, [0], 0));
            RunHistory.Uncouples(LeasedTask(cfg), s) && !Coupled(Next(cfg, LeasedTask(cfg), s))
  {
    var db := LeasedTask(cfg);
    assert TaskCoupling.Strands(db, 0, 0) && 0 in [0];
    var db' := RunnerTasks.EndTask(db, RunnerTasks.Loss(0, 0), 0);
    LoseOne(db);
    assert Next(cfg, db, OnTask(TaskSteps.LoseRunner(0, [0], 0))) == db';
    assert WAIT in db'.waits && !WaitOk(db', WAIT);
  }

  lemma LoseOne(db: Db)
    ensures RunnerTasks.EndAll(db, RunnerTasks.Loss(0, 0), [0]) == RunnerTasks.EndTask(db, RunnerTasks.Loss(0, 0), 0)
  {
    hide RunnerTasks.EndTask;
    var none: seq<TaskId> := [];
    assert [0][..0] == none && RunnerTasks.EndAll(db, RunnerTasks.Loss(0, 0), none) == db;
  }
}
