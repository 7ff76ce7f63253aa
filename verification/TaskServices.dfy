/** The services on runner tasks as they run (backend/app/services/runner_tasks.py), the loss of a runner
    (backend/app/services/observability.py) and the withdrawal of plan tasks (backend/app/services/plans.py). */
module TaskServices {
  import opened Common
  import opened Records
  import opened Tables
  import opened ActionInvariants
  import opened ActionServices
  import opened TaskPreservation
  import ActionVerifications
  import opened Agreement
  import RunnerTasks
  import Effects
  import opened RunInvariants
  import System
  import TaskSteps
  import RunServices

  /** What `finalize_task` relies on. */
  ghost predicate TablesAgree(db: Db) {
    LocksAreOwned(db) && db.verifications.Keys <= db.executions.Keys <= db.actions.Keys
  }

  lemma TablesOfInv(db: Db)
    requires Inv(db)
    ensures TablesAgree(db)
  {
    hide Inv, LockOk, CompensationOk, LockStateOk;
    LocksOfInv(db);
    forall a | a in db.verifications ensures a in db.executions {
      CaseFacts(db, a);
    }
  }

  /** The runner has leased this task and no other, under its token and for exactly one period. */
  ghost predicate HoldsOnly(cfg: Settings, db: Db, runner: RunnerId, token: Token, t: TaskId, now: Time) {
    && (forall u :: u in db.tasks && db.tasks[u].status.TaskLeased? && db.tasks[u].runner == Some(runner) <==> u == t)
    && t in db.tasks && db.tasks[t].token == Some(token) && db.tasks[t].lease == Some(now + cfg.taskLease)
  }

  lemma LeasesOne(cfg: Settings, db: Db, runner: RunnerId, token: Token, expired: seq<TaskId>,
                  candidate: Option<TaskId>, now: Time)
    ensures var o := RunnerTasks.Claim(cfg, db, runner, token, expired, candidate, now);
            o.Accepted? ==> candidate.Some? && HoldsOnly(cfg, o.db, runner, token, candidate.value, now)
  {
    hide RunnerTasks.EndAll;
  }

  lemma ResolvedTables(db: Db, t: TaskId)
    ensures var db' := RunnerTasks.ResolveTask(db, t);
            db' == db.(runs := db'.runs, waits := db'.waits)
  {
  }

  class RunnerTaskService {
    const db: Database
    const cfg: Settings

    constructor (db: Database, cfg: Settings)
      ensures this.db == db && this.cfg == cfg
    {
      this.db, this.cfg := db, cfg;
    }

    method Create(t: TaskId, planStep: Option<PlanStepId>, runner: Option<RunnerId>, maxAttempts: nat)
      returns (reply: Reply)
      modifies db
      ensures var o := RunnerTasks.Create(old(db.State()), t, planStep, runner, maxAttempts);
              reply == Answer(o) && db.State() == After(old(db.State()), o)
      ensures reply.Done? ==>
                && t !in old(db.tasks) && t in db.tasks && RunnerTasks.Live(db.tasks[t])
                && db.tasks[t].attempt == 0 < db.tasks[t].maxAttempts == maxAttempts
                && db.tasks[t].planStep == planStep && db.tasks[t].runner == runner
                && RunnerTasks.WaitingOn(db.State(), t).None?
      ensures KeepsAgreement(old(db.State()), db.State())
    {
      hide KeepsAgreement;
      CreateTaskAgrees(db.State(), t, planStep, runner, maxAttempts);
      if maxAttempts == 0 { return Error(TaskInvalid); }
      if t in db.tasks { return Repeated; }
      db.tasks := db.tasks[t := Task(planStep, None, None, runner, TaskQueued, 0, maxAttempts, None, None, None)];
      return Done;
    }

    /** One row of `_recover_expired`. */
    method RecoverRow(t: TaskId, now: Time)
      requires Inv(db.State()) && t in db.tasks
      modifies db
      ensures db.State() == RunnerTasks.EndTask(old(db.State()), RunnerTasks.Lapse(now), t)
      ensures Effects.TaskEnded(old(db.State()), db.State(), RunnerTasks.Lapse(now), t)
    {
      hide Effects.TaskEnded, Inv, RunnerTasks.ResolveTask, ActionVerifications.FinalizeTask, TablesAgree;
      Effects.EndingSettles(db.State(), RunnerTasks.Lapse(now), t);
      TablesOfInv(db.State());
      var task := db.tasks[t];
      if !RunnerTasks.LeaseExpired(task, now) { return; }
      task := task.(lease := None, token := None);
      if task.attempt < task.maxAttempts {
        db.tasks := db.tasks[t := task.(status := TaskQueued)];
      } else {
        db.tasks := db.tasks[t := task.(status := TaskFailed)];
        ghost var failed := db.State();
        StillAgree(old(db.State()), failed);
        var observations := new RunServices.InvestigationObservationService(db);
        observations.ResolveTask(t);
        ResolvedTables(failed, t);
        var verifications := new ActionVerificationService(db, cfg);
        StillAgree(failed, db.State());
        verifications.FinalizeTask(t, false, now);
      }
    }

    /** `_recover_expired`: the rows of `expired_leases` in the order of the query. */
    method RecoverExpired(expired: seq<TaskId>, now: Time)
      requires Inv(db.State())
      modifies db
      ensures db.State() == RunnerTasks.EndAll(old(db.State()), RunnerTasks.Lapse(now), expired)
      ensures Inv(db.State())
    {
      hide Inv, RunnerTasks.EndTask;
      ghost var before := db.State();
      for i := 0 to |expired|
        invariant Inv(db.State())
        invariant db.State() == RunnerTasks.EndAll(before, RunnerTasks.Lapse(now), expired[..i])
      {
        assert expired[..i+1][..i] == expired[..i];
        EndedInv(db.State(), RunnerTasks.Lapse(now), expired[i]);
        NoRow(db.State(), RunnerTasks.Lapse(now), expired[i]);
        if expired[i] in db.tasks { RecoverRow(expired[i], now); }
      }
      assert expired[..|expired|] == expired;
    }

    /** `candidate` is the first queued row open to the runner that the runner can execute. */
    method Claim(runner: RunnerId, runnerToken: Token, expired: seq<TaskId>, candidate: Option<TaskId>, now: Time)
      returns (reply: Reply)
      requires Inv(db.State())
      modifies db
      ensures var o := RunnerTasks.Claim(cfg, old(db.State()), runner, runnerToken, expired, candidate, now);
              reply == Answer(o) && db.State() == After(old(db.State()), o)
      ensures reply.Done? ==> candidate.Some? && HoldsOnly(cfg, db.State(), runner, runnerToken, candidate.value, now)
      ensures Inv(db.State()) && KeepsAgreement(old(db.State()), db.State())
    {
      hide KeepsAgreement, HoldsOnly, After, RunnerTasks.Leased, RunnerTasks.SetTask;
      ClaimFacts(cfg, db.State(), runner, runnerToken, expired, candidate, now);
      hide Inv, RunnerTasks.EndAll, ActionVerifications.MarkRunning;
      var before := db.State();
      RecoverExpired(expired, now);
      if exists t :: t in db.tasks && db.tasks[t].status.TaskLeased? && db.tasks[t].runner == Some(runner) {
        return Nothing;
      }
      if candidate.None? { return Nothing; }
      var t := candidate.value;
      if t !in db.tasks || !db.tasks[t].status.TaskQueued?
         || (db.tasks[t].runner.Some? && db.tasks[t].runner.value != runner)
      {
        db.Rollback(before);
        return Error(NotOffered);
      }
      Lease(t, runner, runnerToken, now);
      return Done;
    }

    method Lease(t: TaskId, runner: RunnerId, runnerToken: Token, now: Time)
      requires t in db.tasks
      modifies db
      ensures var leased := RunnerTasks.Leased(cfg, old(db.tasks)[t], runner, runnerToken, now);
              db.State() == ActionVerifications.MarkRunning(RunnerTasks.SetTask(old(db.State()), t, leased), t)
    {
      hide ActionVerifications.MarkRunning;
      db.tasks :=
        db.tasks[t := db.tasks[t].(runner := Some(runner), status := TaskLeased, attempt := db.tasks[t].attempt + 1,
                                   token := Some(runnerToken), lease := Some(now + cfg.taskLease))];
      var verifications := new ActionVerificationService(db, cfg);
      verifications.MarkRunning(t);
    }

    method Renew(t: TaskId, runner: RunnerId, token: Token, now: Time) returns (reply: Reply)
      modifies db
      ensures var o := RunnerTasks.Renew(cfg, old(db.State()), t, runner, token, now);
              reply == Answer(o) && db.State() == After(old(db.State()), o)
      ensures reply.Done? ==>
                && t in old(db.tasks) && t in db.tasks && db.tasks[t].attempt == old(db.tasks)[t].attempt
                && forall later :: RunnerTasks.LeaseExpired(db.tasks[t], later) <==> now + cfg.taskLease <= later
      ensures KeepsAgreement(old(db.State()), db.State())
    {
      hide KeepsAgreement;
      RenewTaskAgrees(cfg, db.State(), t, runner, token, now);
      if t !in db.tasks { return Error(TaskNotFound); }
      var task := db.tasks[t];
      if !task.status.TaskLeased? { return Error(TaskNotLeased); }
      if task.runner != Some(runner) || task.token != Some(token) { return Error(TaskFenced); }
      if task.lease.None? || task.lease.value <= now { return Error(TaskLeaseExpired); }
      db.tasks := db.tasks[t := task.(lease := Some(now + cfg.taskLease))];
      return Done;
    }

    method Complete(t: TaskId, runner: RunnerId, completion: CompletionId, token: Token, succeeded: bool, now: Time)
      returns (reply: Reply)
      requires Inv(db.State())
      modifies db
      ensures var o := RunnerTasks.Complete(old(db.State()), t, runner, completion, token, succeeded, now);
              reply == Answer(o) && db.State() == After(old(db.State()), o)
      ensures reply.Done? ==>
                && t in db.tasks && db.tasks[t].completion == Some(completion)
                && (Coupled(old(db.State())) ==> RunnerTasks.WaitingOn(db.State(), t).None?)
      ensures Inv(db.State()) && KeepsAgreement(old(db.State()), db.State())
      ensures reply.Done? ==> Effects.TaskSettled(old(db.State()), db.State(), t, succeeded)
    {
      hide Effects.TaskSettled, KeepsAgreement;
      Effects.TaskCompletionSettles(db.State(), t, runner, completion, token, succeeded, now);
      CompleteTaskAgrees(db.State(), t, runner, completion, token, succeeded, now);
      CompleteTaskInv(db.State(), t, runner, completion, token, succeeded, now);
      hide Inv, RunnerTasks.ResolveTask, ActionVerifications.FinalizeTask, TablesAgree;
      TablesOfInv(db.State());
      ghost var before := db.State();
      if t !in db.tasks { return Error(TaskNotFound); }
      var task := db.tasks[t];
      if task.completion == Some(completion) { return Repeated; }
      if !task.status.TaskLeased? { return Error(TaskNotLeased); }
      if task.runner != Some(runner) || task.token != Some(token) { return Error(TaskFenced); }
      if task.lease.None? || task.lease.value <= now { return Error(TaskLeaseExpired); }
      db.tasks := db.tasks[t := task.(status := if succeeded then TaskSucceeded else TaskFailed,
                                      completion := Some(completion), lease := None)];
      StillAgree(before, db.State());
      var verifications := new ActionVerificationService(db, cfg);
      ghost var stored := db.State();
      verifications.FinalizeTask(t, succeeded, now);
      TaskStays(stored, t, succeeded, now);
      TaskKeepsCompletion(stored, t, succeeded, now);
      var observations := new RunServices.InvestigationObservationService(db);
      if Coupled(before) { CompletedStays(before, stored, t, succeeded, now); }
      observations.ResolveTask(t);
      return Done;
    }

    /** The rows of a runner whose lease ran out, and the rows of a plan that ended. */
    method EndRow(how: RunnerTasks.Ending, t: TaskId)
      requires Inv(db.State()) && t in db.tasks && !how.Lapse?
      modifies db
      ensures db.State() == RunnerTasks.EndTask(old(db.State()), how, t)
      ensures Effects.TaskEnded(old(db.State()), db.State(), how, t)
    {
      hide Effects.TaskEnded, Inv, RunnerTasks.ResolveTask, ActionVerifications.FinalizeTask, TablesAgree;
      Effects.EndingSettles(db.State(), how, t);
      TablesOfInv(db.State());
      var task := db.tasks[t];
      if how.Loss? {
        if !task.status.TaskLeased? || task.runner != Some(how.runner) { return; }
        task := task.(lease := None, token := None);
        if task.attempt < task.maxAttempts {
          db.tasks := db.tasks[t := task.(status := TaskQueued, runner := None)];
        } else {
          ghost var before := db.State();
          db.tasks := db.tasks[t := task.(status := TaskFailed)];
          StillAgree(before, db.State());
          var verifications := new ActionVerificationService(db, cfg);
          verifications.FinalizeTask(t, false, how.now);
        }
      } else {
        if !RunnerTasks.Live(task) || task.planStep.None? { return; }
        db.tasks := db.tasks[t := task.(status := TaskCancelled, lease := None, token := None)];
        var observations := new RunServices.InvestigationObservationService(db);
        observations.ResolveTask(t);
      }
    }

    /** `expire_stale_runners` for one runner, `_cancel_runner_tasks` for one plan or step. */
    method EndRows(how: RunnerTasks.Ending, ids: seq<TaskId>)
      requires Inv(db.State()) && !how.Lapse?
      modifies db
      ensures db.State() == RunnerTasks.EndAll(old(db.State()), how, ids) && Inv(db.State())
    {
      hide Inv, RunnerTasks.EndTask;
      ghost var before := db.State();
      for i := 0 to |ids|
        invariant Inv(db.State())
        invariant db.State() == RunnerTasks.EndAll(before, how, ids[..i])
      {
        assert ids[..i+1][..i] == ids[..i];
        EndedInv(db.State(), how, ids[i]);
        NoRow(db.State(), how, ids[i]);
        if ids[i] in db.tasks { EndRow(how, ids[i]); }
      }
      assert ids[..|ids|] == ids;
    }
  }

  lemma EndedInv(db: Db, how: RunnerTasks.Ending, t: TaskId)
    requires Inv(db)
    ensures Inv(RunnerTasks.EndTask(db, how, t))
  {
    hide Inv, Keeps, RunnerTasks.EndTask;
    EndKeeps(db, how, t);
    KeptInv(db, RunnerTasks.EndTask(db, how, t));
  }

  lemma NoRow(db: Db, how: RunnerTasks.Ending, t: TaskId)
    ensures t !in db.tasks ==> RunnerTasks.EndTask(db, how, t) == db
  {
  }

  lemma StillAgree(db: Db, db': Db)
    requires TablesAgree(db) && db' == db.(tasks := db'.tasks, runs := db'.runs, waits := db'.waits)
    ensures TablesAgree(db')
    ensures LocksAreOwned(db') && db'.verifications.Keys <= db'.executions.Keys <= db'.actions.Keys
  {
  }

  lemma TaskStays(db: Db, t: TaskId, succeeded: bool, now: Time)
    requires t in db.tasks
    ensures t in ActionVerifications.FinalizeTask(db, t, succeeded, now).tasks
  {
    hide ActionVerifications.FinalizeTask, ActionVerifications.Decides;
    FinalizeTables(db, t, succeeded, now);
  }

  lemma ClaimFacts(cfg: Settings, db: Db, runner: RunnerId, token: Token, expired: seq<TaskId>,
                   candidate: Option<TaskId>, now: Time)
    requires Inv(db)
    ensures var o := RunnerTasks.Claim(cfg, db, runner, token, expired, candidate, now);
            && Inv(After(db, o)) && KeepsAgreement(db, After(db, o))
            && After(db, o) == (if o.Refused? then db else o.db)
            && (o.Accepted? ==> candidate.Some? && HoldsOnly(cfg, o.db, runner, token, candidate.value, now))
  {
    hide Inv, RunnerTasks.Claim, KeepsAgreement, HoldsOnly;
    System.StepKeeps(cfg, db, System.OnTask(TaskSteps.Claim(runner, token, expired, candidate, now)));
    ClaimTaskAgrees(cfg, db, runner, token, expired, candidate, now);
    LeasesOne(cfg, db, runner, token, expired, candidate, now);
  }

  lemma CompleteTaskInv(db: Db, t: TaskId, runner: RunnerId, completion: CompletionId, token: Token, succeeded: bool,
                        now: Time)
    requires Inv(db)
    ensures Inv(After(db, RunnerTasks.Complete(db, t, runner, completion, token, succeeded, now)))
  {
    hide Inv, RunnerTasks.Complete;
    System.StepKeeps(ANY, db, System.OnTask(TaskSteps.Complete(t, runner, completion, token, succeeded, now)));
  }

  lemma CompletedStays(db: Db, stored: Db, t: TaskId, succeeded: bool, now: Time)
    requires Coupled(db) && t in db.tasks && t in stored.tasks && stored.tasks[t].wait == db.tasks[t].wait
    requires stored.runs == db.runs && stored.waits == db.waits
    ensures var mid := ActionVerifications.FinalizeTask(stored, t, succeeded, now);
            RunnerTasks.WaitingOn(RunnerTasks.ResolveTask(mid, t), t).None?
  {
    hide Coupled, RunnerTasks.ResolveTask;
    TaskKeepsCompletion(stored, t, succeeded, now);
    NothingWaits(db, ActionVerifications.FinalizeTask(stored, t, succeeded, now), t);
  }

  lemma TaskKeepsCompletion(db: Db, t: TaskId, succeeded: bool, now: Time)
    requires t in db.tasks
    ensures var db' := ActionVerifications.FinalizeTask(db, t, succeeded, now);
            && t in db'.tasks && db'.tasks[t].completion == db.tasks[t].completion
            && db'.tasks[t].wait == db.tasks[t].wait && db'.runs == db.runs && db'.waits == db.waits
  {
    hide ActionVerifications.FinalizeTask;
    FinalizeTables(db, t, succeeded, now);
  }

  /** In a coupled state nothing waits for a task once its wait was resolved. */
  lemma NothingWaits(db: Db, mid: Db, t: TaskId)
    requires Coupled(db) && t in db.tasks && t in mid.tasks && mid.tasks[t].wait == db.tasks[t].wait
    requires mid.runs == db.runs && mid.waits == db.waits
    ensures RunnerTasks.WaitingOn(RunnerTasks.ResolveTask(mid, t), t).None?
  {
    hide Coupled;
    WaitFacts(db, t);
  }
}
