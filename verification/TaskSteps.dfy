/** The requests on runner tasks as steps of a run. */
module TaskSteps {
  import opened Common
  import opened Records
  import opened ActionInvariants
  import opened TaskPreservation
  import opened TaskCoupling
  import opened TaskLife
  import opened RunnerTasks
  import ActionVerifications
  import opened RunInvariants

  datatype TaskStep =
    | Create(t: TaskId, planStep: Option<PlanStepId>, assignee: Option<RunnerId>, maxAttempts: nat)
    | Claim(runner: RunnerId, runnerToken: Token, expired: seq<TaskId>, candidate: Option<TaskId>, now: Time)
    | Renew(t: TaskId, runner: RunnerId, token: Token, now: Time)
    | Complete(t: TaskId, runner: RunnerId, completion: CompletionId, token: Token, succeeded: bool, now: Time)
    | LoseRunner(runner: RunnerId, ids: seq<TaskId>, now: Time)
    | Withdraw(ids: seq<TaskId>)

  function Apply(cfg: Settings, db: Db, s: TaskStep): Outcome {
    match s
    case Create(t, planStep, assignee, maxAttempts) => RunnerTasks.Create(db, t, planStep, assignee, maxAttempts)
    case Claim(runner, token, expired, candidate, now) =>
      RunnerTasks.Claim(cfg, db, runner, token, expired, candidate, now)
    case Renew(t, runner, token, now) => RunnerTasks.Renew(cfg, db, t, runner, token, now)
    case Complete(t, runner, completion, token, succeeded, now) =>
      RunnerTasks.Complete(db, t, runner, completion, token, succeeded, now)
    case LoseRunner(runner, ids, now) => Accepted(EndAll(db, Loss(runner, now), ids))
    case Withdraw(ids) => Accepted(EndAll(db, Withdrawal, ids))
  }

  /** The task a step leases. */
  function Leases(cfg: Settings, db: Db, s: TaskStep): Option<TaskId> {
    if s.Claim? then LeasedBy(Apply(cfg, db, s), s.candidate) else None
  }

  lemma StepLives(cfg: Settings, db: Db, s: TaskStep)
    ensures var db' := After(db, Apply(cfg, db, s));
            TasksGrow(db, db', Leases(cfg, db, s)) && RunsGrow(db, db', None)
  {
    hide TasksGrow, RunsGrow, EndAll, RunnerTasks.Create, RunnerTasks.Claim, RunnerTasks.Renew, RunnerTasks.Complete;
    match s
    case Create(t, planStep, assignee, maxAttempts) => CreateLivesOn(db, t, planStep, assignee, maxAttempts);
    case Claim(runner, token, expired, candidate, now) => ClaimGrows(cfg, db, runner, token, expired, candidate, now);
    case Renew(t, runner, token, now) => RenewLivesOn(cfg, db, t, runner, token, now);
    case Complete(t, runner, completion, token, succeeded, now) =>
      CompleteLivesOn(db, t, runner, completion, token, succeeded, now);
    case LoseRunner(runner, ids, now) => EndAllLivesOn(db, Loss(runner, now), ids);
    case Withdraw(ids) => EndAllLivesOn(db, Withdrawal, ids);
  }

  lemma ClaimIsKept(cfg: Settings, db: Db, runner: RunnerId, token: Token, expired: seq<TaskId>,
                    candidate: Option<TaskId>, now: Time)
    requires Inv(db)
    ensures Keeps(db, After(db, RunnerTasks.Claim(cfg, db, runner, token, expired, candidate, now)))
  {
    hide Inv, Keeps, EndAll, HasLeased, ActionVerifications.MarkRunning;
    NothingIsKept(db);
    var mid := EndAll(db, Lapse(now), expired);
    EndAllKeeps(db, Lapse(now), expired);
    KeptInv(db, mid);
    var o := RunnerTasks.Claim(cfg, db, runner, token, expired, candidate, now);
    if o.Accepted? {
      LeaseKeeps(cfg, mid, candidate.value, runner, token, now);
      KeepsOn(db, mid, o.db);
    }
  }

  lemma RenewIsKept(cfg: Settings, db: Db, t: TaskId, runner: RunnerId, token: Token, now: Time)
    requires Inv(db)
    ensures Keeps(db, After(db, RunnerTasks.Renew(cfg, db, t, runner, token, now)))
  {
    hide Inv, Keeps;
    NothingIsKept(db);
    if RunnerTasks.Renew(cfg, db, t, runner, token, now).Accepted? {
      RenewTaskKeeps(cfg, db, t, now);
    }
  }

  lemma CreateIsKept(db: Db, t: TaskId, planStep: Option<PlanStepId>, runner: Option<RunnerId>, maxAttempts: nat)
    requires Inv(db)
    ensures Keeps(db, After(db, RunnerTasks.Create(db, t, planStep, runner, maxAttempts)))
  {
    hide Inv, Keeps;
    NothingIsKept(db);
    if t !in db.tasks && maxAttempts > 0 {
      PlainTask(db, t, Task(planStep, None, None, runner, TaskQueued, 0, maxAttempts, None, None, None));
    }
  }

  /** Every request about tasks keeps the records in agreement; an action only changes while it is verifying. */
  lemma StepKeeps(cfg: Settings, db: Db, s: TaskStep)
    requires Inv(db)
    ensures Keeps(db, After(db, Apply(cfg, db, s)))
  {
    hide Inv, Keeps, EndAll, RunnerTasks.Create, RunnerTasks.Claim, RunnerTasks.Renew, RunnerTasks.Complete;
    match s
    case Create(t, planStep, assignee, maxAttempts) => CreateIsKept(db, t, planStep, assignee, maxAttempts);
    case Claim(runner, token, expired, candidate, now) => ClaimIsKept(cfg, db, runner, token, expired, candidate, now);
    case Renew(t, runner, token, now) => RenewIsKept(cfg, db, t, runner, token, now);
    case Complete(t, runner, completion, token, succeeded, now) =>
      CompleteTaskKeeps(db, t, runner, completion, token, succeeded, now);
    case LoseRunner(runner, ids, now) => EndAllKeeps(db, Loss(runner, now), ids);
    case Withdraw(ids) => EndAllKeeps(db, Withdrawal, ids);
  }

  /** The steps on tasks that break the coupling of waits are the losses of a runner that strand a run. */
  ghost predicate StrandsRun(db: Db, s: TaskStep) {
    s.LoseRunner? && exists t :: t in s.ids && Strands(db, s.runner, t)
  }

  lemma StepKeepsCoupling(cfg: Settings, db: Db, s: TaskStep)
    requires Inv(db) && Coupled(db) && RunsOk(db)
    ensures Coupled(After(db, Apply(cfg, db, s))) <==> !StrandsRun(db, s)
  {
    hide Inv, Coupled, RunsOk, EndAll, RunnerTasks.Create, RunnerTasks.Claim, RunnerTasks.Renew, RunnerTasks.Complete,
      Strands;
    match s
    case Create(t, planStep, assignee, maxAttempts) => TaskCreateKeeps(db, t, planStep, assignee, maxAttempts);
    case Claim(runner, token, expired, candidate, now) =>
      TaskClaimKeepsCoupling(cfg, db, runner, token, expired, candidate, now);
    case Renew(t, runner, token, now) => TaskRenewKeepsCoupling(cfg, db, t, runner, token, now);
    case Complete(t, runner, completion, token, succeeded, now) =>
      CompleteTaskKeepsCoupling(db, t, runner, completion, token, succeeded, now);
    case LoseRunner(runner, ids, now) => LossKeepsCoupling(db, runner, now, ids);
    case Withdraw(ids) => EndAllKeepsCoupling(db, Withdrawal, ids);
  }
}
