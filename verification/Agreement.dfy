/** What every request keeps, as the services promise it: the records agree, the logs add up, waits and tasks point
    at each other, and waiting runs stay parked unless the request is one that forgets or strands a wait. */
module Agreement {
  import opened Common
  import opened InvestigationGraph
  import opened Records
  import opened ActionInvariants
  import opened StepRelations
  import opened RunInvariants
  import opened TaskLife
  import opened System
  import InvestigationHitl
  import Investigations
  import RunHistory
  import RunPreservation
  import RunnerTasks
  import RunSteps
  import TaskSteps
  import ActionSteps
  import ResourceLocks
  import TaskCoupling
  import TaskPreservation

  /** The settings of a request that reads none. */
  const ANY := Settings(0, 0, 0, 0)

  ghost predicate Agreed(db: Db) {
    Inv(db) && RunsOk(db) && Linked(db)
  }

  /** Agreement is kept, and so is the coupling of runs, waits and tasks. */
  ghost predicate KeepsAgreement(db: Db, db': Db) {
    Agreed(db) ==> Agreed(db') && (Coupled(db) ==> Coupled(db'))
  }

  lemma StepAgrees(cfg: Settings, db: Db, s: Step)
    ensures Agreed(db) ==>
              && Agreed(Next(cfg, db, s))
              && (Coupled(db) ==> (Coupled(Next(cfg, db, s)) <==> !RunHistory.Uncouples(db, s)))
  {
    hide Inv, RunsOk, Linked, Coupled, Next, Grows, TasksGrow, RunsGrow, RunHistory.Uncouples;
    if Agreed(db) {
      StepKeeps(cfg, db, s);
      StepLives(cfg, db, s);
      RunsStayOk(db, Next(cfg, db, s), Claims(cfg, db, s));
      if Coupled(db) { RunHistory.CouplingIsKeptExactly(cfg, db, s); }
    }
  }

  /** All requests but two can neither forget nor strand a wait. */
  lemma RequestAgrees(cfg: Settings, db: Db, s: Step)
    requires !(s.OnRun? && s.run.Transition?) && !(s.OnTask? && s.task.LoseRunner?)
    ensures KeepsAgreement(db, Next(cfg, db, s))
  {
    hide Agreed, Coupled, Next;
    StepAgrees(cfg, db, s);
  }

  lemma LivesOnAgrees(db: Db, db': Db)
    requires Agreed(db) && Inv(db') && LivesOn(db, db')
    ensures Agreed(db')
  {
    hide Inv, RunsOk, Linked, TasksGrow, RunsGrow;
    RunsStayOk(db, db', None);
  }

  /** Waking the run that waits for a task, inside another request. */
  lemma ResolveTaskAgrees(db: Db, t: TaskId)
    ensures KeepsAgreement(db, RunnerTasks.ResolveTask(db, t))
  {
    hide Inv, RunsOk, Linked, Coupled, RunnerTasks.ResolveTask, LivesOn, TaskPreservation.Keeps;
    if Agreed(db) {
      TaskPreservation.ResolveKeeps(db, t);
      TaskPreservation.KeptInv(db, RunnerTasks.ResolveTask(db, t));
      ResolveLivesOn(db, t);
      LivesOnAgrees(db, RunnerTasks.ResolveTask(db, t));
      if Coupled(db) { WokenRunKeeps(db, t); }
    }
  }

  lemma WokenRunKeeps(db: Db, t: TaskId)
    requires Coupled(db) && RunsOk(db)
    ensures Coupled(RunnerTasks.ResolveTask(db, t))
  {
    hide RunsOk, Coupled;
    if t in db.tasks {
      EndedTaskKeeps(db, t, db.tasks[t]);
      assert RunnerTasks.SetTask(db, t, db.tasks[t]) == db;
    }
  }

  /** Pausing a run for a task, inside the worker's transaction. */
  lemma ObservationAgrees(db: Db, r: RunId, id: ExecutionId, i: Investigations.Interrupt)
    requires i.Observation? && r in db.runs
    ensures KeepsAgreement(db, After(db, Investigations.StartObservation(db, r, id, i)))
  {
    hide Inv, RunsOk, Linked, Coupled, Investigations.StartObservation, LivesOn, TaskPreservation.Keeps;
    if Agreed(db) {
      var db' := After(db, Investigations.StartObservation(db, r, id, i));
      TaskCoupling.StartObservationIsKept(db, r, id, i);
      TaskPreservation.KeptInv(db, db');
      StartObservationLivesOn(db, r, id, i);
      LivesOnAgrees(db, db');
      if Coupled(db) { RunPreservation.StartObservationKeeps(db, r, id, i); }
    }
  }

  /** Writing a checkpoint, inside or outside the worker's transaction. */
  lemma CheckpointAgrees(db: Db, r: RunId, id: ExecutionId, version: nat, c: Content, references: bool,
                         writer: Option<Owner>)
    ensures KeepsAgreement(db, After(db, Investigations.WriteCheckpoint(db, r, id, version, c, references, writer)))
  {
    hide Inv, RunsOk, Linked, Coupled, Investigations.WriteCheckpoint, LivesOn, TaskPreservation.Keeps;
    if Agreed(db) {
      var db' := After(db, Investigations.WriteCheckpoint(db, r, id, version, c, references, writer));
      TaskCoupling.CheckpointIsKept(db, r, id, version, c, references, writer);
      TaskPreservation.KeptInv(db, db');
      CheckpointLivesOn(db, r, id, version, c, references, writer);
      LivesOnAgrees(db, db');
      if Coupled(db) { RunPreservation.CheckpointKeeps(db, r, id, version, c, references, writer); }
    }
  }

  // ----- The requests of the services, one by one ------------------------------------------------------------

  lemma StartWaitAgrees(db: Db, r: RunId, checkpoint: ExecutionId, subject: Subject, version: nat, pending: bool)
    ensures KeepsAgreement(db, After(db, InvestigationHitl.StartWait(db, r, checkpoint, subject, version, pending)))
  {
    hide KeepsAgreement, InvestigationHitl.StartWait;
    RequestAgrees(ANY, db, OnRun(RunSteps.StartWait(r, checkpoint, subject, version, pending)));
  }

  lemma ResolveSubjectAgrees(db: Db, subject: Subject, run: Option<RunId>)
    ensures KeepsAgreement(db, After(db, InvestigationHitl.ResolveSubject(db, subject, run)))
  {
    hide KeepsAgreement, InvestigationHitl.ResolveSubject;
    RequestAgrees(ANY, db, OnRun(RunSteps.Resolve(subject, run)));
  }

  lemma CreateRunAgrees(db: Db, r: RunId, graph: GraphVersion, maxIterations: nat, requestLimit: nat)
    ensures KeepsAgreement(db, After(db, Investigations.Create(db, r, graph, maxIterations, requestLimit)))
  {
    hide KeepsAgreement, Investigations.Create;
    RequestAgrees(ANY, db, OnRun(RunSteps.Create(r, graph, maxIterations, requestLimit)));
  }

  lemma ClaimRunAgrees(cfg: Settings, db: Db, owner: Owner, candidate: Option<RunId>, now: Time)
    ensures KeepsAgreement(db, After(db, Investigations.Claim(cfg, db, owner, candidate, now)))
  {
    hide KeepsAgreement, Investigations.Claim;
    RequestAgrees(cfg, db, OnRun(RunSteps.Claim(owner, candidate, now)));
  }

  lemma RenewRunAgrees(cfg: Settings, db: Db, r: RunId, owner: Owner, now: Time)
    ensures KeepsAgreement(db, After(db, Investigations.RenewLease(cfg, db, r, owner, now)))
  {
    hide KeepsAgreement, Investigations.RenewLease;
    RequestAgrees(cfg, db, OnRun(RunSteps.Renew(r, owner, now)));
  }

  lemma ExecutorCheckpointAgrees(db: Db, r: RunId, owner: Owner, id: ExecutionId, c: Content, references: bool,
                                 i: Investigations.Interrupt)
    ensures KeepsAgreement(db, After(db, Investigations.ExecutorCheckpoint(db, r, owner, id, c, references, i)))
  {
    hide KeepsAgreement, Investigations.ExecutorCheckpoint;
    RequestAgrees(ANY, db, OnRun(RunSteps.ExecutorWrite(r, owner, id, c, references, i)));
  }

  lemma FinishAgrees(db: Db, r: RunId, owner: Owner, target: RunStatus)
    ensures KeepsAgreement(db, After(db, Investigations.FinishRun(db, r, owner, target)))
  {
    hide KeepsAgreement, Investigations.FinishRun;
    RequestAgrees(ANY, db, OnRun(RunSteps.Finish(r, owner, target)));
  }

  /** A transition keeps agreement, and the coupling exactly if it does not forget a wait. */
  ghost predicate KeepsUnlessForgotten(db: Db, db': Db, r: RunId, version: nat, target: RunStatus) {
    Agreed(db) ==>
      && Agreed(db')
      && (Coupled(db) ==>
            (Coupled(db') <==> !RunSteps.ForgetsWait(db, RunSteps.Transition(r, version, target))))
  }

  lemma TransitionAgrees(db: Db, r: RunId, version: nat, target: RunStatus)
    ensures KeepsUnlessForgotten(db, After(db, Investigations.Transition(db, r, version, target)), r, version, target)
  {
    hide Agreed, Coupled, Investigations.Transition, RunSteps.ForgetsWait;
    StepAgrees(ANY, db, OnRun(RunSteps.Transition(r, version, target)));
  }

  lemma CreateTaskAgrees(db: Db, t: TaskId, planStep: Option<PlanStepId>, runner: Option<RunnerId>, maxAttempts: nat)
    ensures KeepsAgreement(db, After(db, RunnerTasks.Create(db, t, planStep, runner, maxAttempts)))
  {
    hide KeepsAgreement, RunnerTasks.Create;
    RequestAgrees(ANY, db, OnTask(TaskSteps.Create(t, planStep, runner, maxAttempts)));
  }

  lemma ClaimTaskAgrees(cfg: Settings, db: Db, runner: RunnerId, token: Token, expired: seq<TaskId>,
                        candidate: Option<TaskId>, now: Time)
    ensures KeepsAgreement(db, After(db, RunnerTasks.Claim(cfg, db, runner, token, expired, candidate, now)))
  {
    hide KeepsAgreement, RunnerTasks.Claim;
    RequestAgrees(cfg, db, OnTask(TaskSteps.Claim(runner, token, expired, candidate, now)));
  }

  lemma RenewTaskAgrees(cfg: Settings, db: Db, t: TaskId, runner: RunnerId, token: Token, now: Time)
    ensures KeepsAgreement(db, After(db, RunnerTasks.Renew(cfg, db, t, runner, token, now)))
  {
    hide KeepsAgreement, RunnerTasks.Renew;
    RequestAgrees(cfg, db, OnTask(TaskSteps.Renew(t, runner, token, now)));
  }

  lemma CompleteTaskAgrees(db: Db, t: TaskId, runner: RunnerId, completion: CompletionId, token: Token,
                           succeeded: bool, now: Time)
    ensures KeepsAgreement(db, After(db, RunnerTasks.Complete(db, t, runner, completion, token, succeeded, now)))
  {
    hide KeepsAgreement, RunnerTasks.Complete;
    RequestAgrees(ANY, db, OnTask(TaskSteps.Complete(t, runner, completion, token, succeeded, now)));
  }

  lemma AcquireAgrees(cfg: Settings, db: Db, a: ActionId, authorised: bool, now: Time)
    ensures KeepsAgreement(db, After(db, ResourceLocks.Acquire(cfg, db, a, authorised, now)))
  {
    hide KeepsAgreement, ResourceLocks.Acquire;
    RequestAgrees(cfg, db, OnAction(ActionSteps.AcquireLock(a, authorised, now)));
  }

  // ----- What one call undoes of another ----------------------------------------------------------------------

  /** A run that was paused for a human's decision goes back to the queue once the decision is made, with its log and
      its budget as they were. */
  lemma HitlRoundTrip(db: Db, r: RunId, checkpoint: ExecutionId, subject: Subject, version: nat, pending: bool)
    requires InvestigationHitl.StartWait(db, r, checkpoint, subject, version, pending).Accepted?
    ensures var paused := After(db, InvestigationHitl.StartWait(db, r, checkpoint, subject, version, pending));
            var o := InvestigationHitl.ResolveSubject(paused, subject, Some(r));
            && r in db.runs && o.Accepted?
            && o.db == db.(
                 runs := db.runs[r := db.runs[r].(status := RunQueued, owner := None, lease := None,
                                                  version := db.runs[r].version + 2)],
                 waits := db.waits[HitlWait(r, subject) := Wait(Resolved, checkpoint, None)])
  {
    var w := HitlWait(r, subject);
    var paused := After(db, InvestigationHitl.StartWait(db, r, checkpoint, subject, version, pending));
    var back := InvestigationHitl.ResolveSubject(paused, subject, Some(r)).db;
    assert back.waits == db.waits[w := Wait(Resolved, checkpoint, None)];
    assert back.runs == db.runs[r := InvestigationHitl.Requeued(paused.runs[r])];
  }

  /** The same for a run that was paused for a task. */
  lemma ObservationRoundTrip(db: Db, r: RunId, id: ExecutionId, i: Investigations.Interrupt)
    requires i.Observation? && r in db.runs && Investigations.StartObservation(db, r, id, i).Accepted?
    ensures var paused := After(db, Investigations.StartObservation(db, r, id, i));
            RunnerTasks.ResolveTask(paused, i.task) == paused.(
              runs := db.runs[r := db.runs[r].(status := RunQueued, owner := None, lease := None,
                                               version := db.runs[r].version + 2)],
              waits := db.waits[ObservationWait(r, id) := Wait(Resolved, id, Some(i.task))])
  {
    var w := ObservationWait(r, id);
    var paused := After(db, Investigations.StartObservation(db, r, id, i));
    var back := RunnerTasks.ResolveTask(paused, i.task);
    assert back.waits == db.waits[w := Wait(Resolved, id, Some(i.task))];
    assert back.runs == db.runs[r := InvestigationHitl.Requeued(paused.runs[r])];
  }
}
