/** What the steps on tasks do to the waits of runs, and exactly when the loss of a runner strands a run. */
module TaskCoupling {
  import opened Common
  import opened Records
  import opened ActionInvariants
  import opened TaskPreservation
  import opened RunnerTasks
  import opened ActionVerifications
  import opened InvestigationHitl
  import opened Investigations
  import opened RunInvariants
  import opened RunPreservation

  // ----- The loss of a runner -----------------------------------------------------------------------

  /** A task after its runner was declared lost. */
  function Lost(task: Task, runner: RunnerId): Task {
    if !task.status.TaskLeased? || task.runner != Some(runner) then task
    else if task.attempt < task.maxAttempts then GivenBack(task).(runner := None)
    else GivenBack(task)
  }

  lemma LossTables(db: Db, runner: RunnerId, now: Time, t: TaskId)
    requires t in db.tasks
    ensures var db' := EndTask(db, Loss(runner, now), t);
            db'.runs == db.runs && db'.waits == db.waits && db'.tasks == db.tasks[t := Lost(db.tasks[t], runner)]
  {
    hide FinalizeTask, GivenBack;
    var task := db.tasks[t];
    if task.status.TaskLeased? && task.runner == Some(runner) {
      var given := SetTask(db, t, GivenBack(task));
      FinalizeTables(given, t, false, now);
      if task.attempt >= task.maxAttempts { NoRetry(db, t, runner); }
    } else {
      assert db.tasks[t := task] == db.tasks;
    }
  }

  lemma NoTask(db: Db, how: Ending, t: TaskId)
    requires t !in db.tasks
    ensures EndTask(db, how, t) == db
  {
  }

  lemma NoRetry(db: Db, t: TaskId, runner: RunnerId)
    requires t in db.tasks && db.tasks[t].attempt >= db.tasks[t].maxAttempts
    ensures !Retries(SetTask(db, t, GivenBack(db.tasks[t])), t, false)
  {
  }

  /** The loop over the tasks of a lost runner changes each of them once. */
  lemma {:induction false} AllLossTables(db: Db, runner: RunnerId, now: Time, ids: seq<TaskId>)
    ensures var db' := EndAll(db, Loss(runner, now), ids);
            && db'.runs == db.runs && db'.waits == db.waits && db'.tasks.Keys == db.tasks.Keys
            && forall t :: t in db.tasks ==>
                 db'.tasks[t] == if t in ids then Lost(db.tasks[t], runner) else db.tasks[t]
  {
    hide EndTask, GivenBack, Lost;
    if ids != [] {
      AllLossTables(db, runner, now, ids[..|ids|-1]);
      if ids[|ids|-1] in db.tasks {
        LossTables(EndAll(db, Loss(runner, now), ids[..|ids|-1]), runner, now, ids[|ids|-1]);
      } else {
        NoTask(EndAll(db, Loss(runner, now), ids[..|ids|-1]), Loss(runner, now), ids[|ids|-1]);
      }
      assert ids == ids[..|ids|-1] + [ids[|ids|-1]];
      forall t | t in db.tasks ensures Lost(Lost(db.tasks[t], runner), runner) == Lost(db.tasks[t], runner) {
        LostOnce(db.tasks[t], runner);
      }
    }
  }

  lemma LostOnce(task: Task, runner: RunnerId)
    ensures Lost(Lost(task, runner), runner) == Lost(task, runner)
  {
  }

  /** The lost runner holds the last attempt of a task that a run waits for. */
  predicate Strands(db: Db, runner: RunnerId, t: TaskId) {
    t in db.tasks && WaitingOn(db, t).Some? && db.tasks[t].status.TaskLeased?
    && db.tasks[t].runner == Some(runner) && db.tasks[t].attempt >= db.tasks[t].maxAttempts
  }

  /** Declaring a runner lost keeps the coupling of waits if and only if it strands no run: an exhausted task
      is failed without waking the run that waits for it. */
  lemma LossKeepsCoupling(db: Db, runner: RunnerId, now: Time, ids: seq<TaskId>)
    requires Coupled(db) && RunsOk(db)
    ensures var db' := EndAll(db, Loss(runner, now), ids);
            && RunsOk(db')
            && (Coupled(db') <==> forall t :: t in ids ==> !Strands(db, runner, t))
  {
    hide EndAll;
    var db' := EndAll(db, Loss(runner, now), ids);
    AllLossTables(db, runner, now, ids);
    hide Coupled, RunsOk;
    if t :| t in ids && Strands(db, runner, t) {
      StrandedWait(db, db', runner, t);
      SameRuns(db, db');
    } else {
      assert MildTasks(db, db');
      MildTasksKeep(db, db');
    }
  }

  lemma SameRuns(db: Db, db': Db)
    requires RunsOk(db) && db'.runs == db.runs
    ensures RunsOk(db')
  {
  }

  lemma StrandedWait(db: Db, db': Db, runner: RunnerId, t: TaskId)
    requires Coupled(db) && Strands(db, runner, t)
    requires db'.waits == db.waits && t in db'.tasks && db'.tasks[t] == Lost(db.tasks[t], runner)
    ensures !Coupled(db')
  {
    WaitFacts(db, t);
    assert !WaitOk(db', WaitingOn(db, t).value);
  }

  // ----- Other steps on tasks --------------------------------------------------------------------------

  lemma TaskCreateKeeps(db: Db, t: TaskId, planStep: Option<PlanStepId>, runner: Option<RunnerId>, maxAttempts: nat)
    requires Inv(db) && Coupled(db) && RunsOk(db)
    ensures var db' := After(db, RunnerTasks.Create(db, t, planStep, runner, maxAttempts));
            Keeps(db, db') && Coupled(db') && RunsOk(db')
  {
    hide Inv, Keeps, Coupled, RunsOk;
    NothingIsKept(db);
    if t !in db.tasks && maxAttempts > 0 {
      var task := Task(planStep, None, None, runner, TaskQueued, 0, maxAttempts, None, None, None);
      PlainTask(db, t, task);
      assert MildTasks(db, SetTask(db, t, task));
      MildTasksKeep(db, SetTask(db, t, task));
    }
  }

  lemma TaskClaimKeepsCoupling(cfg: Settings, db: Db, runner: RunnerId, token: Token, expired: seq<TaskId>,
                               candidate: Option<TaskId>, now: Time)
    requires Coupled(db) && RunsOk(db)
    ensures var db' := After(db, RunnerTasks.Claim(cfg, db, runner, token, expired, candidate, now));
            Coupled(db') && RunsOk(db')
  {
    hide Coupled, RunsOk, EndAll, HasLeased, MarkRunning;
    EndAllKeepsCoupling(db, Lapse(now), expired);
    var mid := EndAll(db, Lapse(now), expired);
    if RunnerTasks.Claim(cfg, db, runner, token, expired, candidate, now).Accepted? {
      var t := candidate.value;
      var leased := SetTask(mid, t, Leased(cfg, mid.tasks[t], runner, token, now));
      MarkTables(leased, t);
      assert MildTasks(mid, MarkRunning(leased, t));
      MildTasksKeep(mid, MarkRunning(leased, t));
    }
  }

  lemma MarkTables(db: Db, t: TaskId)
    ensures var db' := MarkRunning(db, t); db'.tasks == db.tasks && db'.runs == db.runs && db'.waits == db.waits
  {
  }

  lemma TaskRenewKeepsCoupling(cfg: Settings, db: Db, t: TaskId, runner: RunnerId, token: Token, now: Time)
    requires Coupled(db) && RunsOk(db)
    ensures var db' := After(db, RunnerTasks.Renew(cfg, db, t, runner, token, now)); Coupled(db') && RunsOk(db')
  {
    hide Coupled, RunsOk;
    var db' := After(db, RunnerTasks.Renew(cfg, db, t, runner, token, now));
    assert MildTasks(db, db');
    MildTasksKeep(db, db');
  }

  // ----- What run steps do to the action tables -------------------------------------------------------------

  lemma CancelWaitsIsOutside(db: Db, mid: Db, r: RunId)
    requires Inv(db) && mid == db.(runs := mid.runs)
    ensures Outside(db, CancelWaits(mid, r))
  {
    hide CaseOk, LockOk;
    var db' := CancelWaits(mid, r);
    forall t | t in db.tasks && db'.tasks[t] != db.tasks[t]
      ensures db.tasks[t].verification.None? && db'.tasks[t].verification.None? && TaskOk(db'.tasks[t])
    {
      TaskFacts(db, t);
      if db.tasks[t].verification.Some? { LiveTaskCase(db, t); }
    }
  }

  lemma TransitionKeeps(db: Db, r: RunId, version: nat, target: RunStatus)
    requires Inv(db)
    ensures Keeps(db, After(db, Transition(db, r, version, target)))
  {
    hide Inv, Keeps, CancelWaits, Outside;
    NothingIsKept(db);
    if Transition(db, r, version, target).Accepted? {
      var mid := SetRun(db, r, Moved(db.runs[r], target));
      RunTablesKeep(db, mid);
      CancelWaitsIsOutside(db, mid, r);
      OutsideKeeps(db, CancelWaits(mid, r));
    }
  }

  lemma StartObservationIsKept(db: Db, r: RunId, id: ExecutionId, i: Interrupt)
    requires Inv(db) && i.Observation? && r in db.runs
    ensures Keeps(db, After(db, StartObservation(db, r, id, i)))
  {
    hide Inv, Keeps;
    NothingIsKept(db);
    if StartObservation(db, r, id, i).Accepted? {
      OutsideKeeps(db, After(db, StartObservation(db, r, id, i)));
    }
  }

  lemma ExecutorCheckpointIsKept(db: Db, r: RunId, owner: Owner, id: ExecutionId, c: Content, references: bool,
                                 i: Interrupt)
    requires Inv(db)
    ensures Keeps(db, After(db, ExecutorCheckpoint(db, r, owner, id, c, references, i)))
  {
    hide Inv, Keeps, WriteCheckpoint, StartWait, StartObservation;
    NothingIsKept(db);
    if r in db.runs && db.runs[r].owner == Some(owner) {
      var written := WriteCheckpoint(db, r, id, db.runs[r].version, c, references, Some(owner));
      CheckpointIsKept(db, r, id, db.runs[r].version, c, references, Some(owner));
      if !written.Refused? && r in written.db.runs {
        KeptInv(db, written.db);
        if i.Hitl? {
          var paused :=
            After(written.db, StartWait(written.db, r, id, i.subject, written.db.runs[r].version, i.pending));
          StartWaitIsKept(written.db, r, id, i.subject, written.db.runs[r].version, i.pending);
          KeepsOn(db, written.db, paused);
        }
        if i.Observation? {
          StartObservationIsKept(written.db, r, id, i);
          KeepsOn(db, written.db, After(written.db, StartObservation(written.db, r, id, i)));
        }
      }
    }
  }

  lemma CheckpointIsKept(db: Db, r: RunId, id: ExecutionId, version: nat, c: Content, references: bool,
                         writer: Option<Owner>)
    requires Inv(db)
    ensures Keeps(db, After(db, WriteCheckpoint(db, r, id, version, c, references, writer)))
  {
    hide Inv, Keeps;
    RunTablesKeep(db, After(db, WriteCheckpoint(db, r, id, version, c, references, writer)));
  }

  lemma StartWaitIsKept(db: Db, r: RunId, checkpoint: ExecutionId, subject: Subject, version: nat, pending: bool)
    requires Inv(db)
    ensures Keeps(db, After(db, StartWait(db, r, checkpoint, subject, version, pending)))
  {
    hide Inv, Keeps;
    RunTablesKeep(db, After(db, StartWait(db, r, checkpoint, subject, version, pending)));
  }
}
