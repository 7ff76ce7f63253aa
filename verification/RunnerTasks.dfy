/** The leased task queue (backend/app/services/runner_tasks.py), the loss of a runner
    (backend/app/services/observability.py) and the withdrawal of plan tasks (backend/app/services/plans.py). */
module RunnerTasks {
  import opened Common
  import opened Records
  import opened ActionVerifications
  import opened InvestigationHitl

  predicate Live(task: Task) {
    task.status.TaskQueued? || task.status.TaskLeased?
  }

  predicate LeaseExpired(task: Task, now: Time) {
    task.status.TaskLeased? && task.lease.Some? && task.lease.value <= now
  }

  /** `get_waiting_observation_for_task`. */
  function WaitingOn(db: Db, t: TaskId): Option<WaitKey> {
    var w := if t in db.tasks then db.tasks[t].wait else None;
    if w.Some? && WaitsFor(db, w.value) then w else None
  }

  /** `resolve_task`: the run waiting for the task, if one is, goes back to the queue. */
  function ResolveTask(db: Db, t: TaskId): Db {
    match WaitingOn(db, t)
    case None => db
    case Some(w) => ResolveWait(db, w)
  }

  function SetTask(db: Db, t: TaskId, task: Task): Db {
    db.(tasks := db.tasks[t := task])
  }

  /** A task id that is already taken stands for a replayed idempotency key. The request schema asks for at
      least one attempt. */
  function Create(db: Db, t: TaskId, planStep: Option<PlanStepId>, runner: Option<RunnerId>,
                  maxAttempts: nat): Outcome
  {
    if maxAttempts == 0 then Refused(TaskInvalid)
    else if t in db.tasks then Replayed(db)
    else Accepted(SetTask(db, t, Task(planStep, None, None, runner, TaskQueued, 0, maxAttempts, None, None, None)))
  }

  // ----- Tasks that end without a completion ----------------------------------------------------

  /** Why a task's lease or life ends: its lease ran out, its runner was declared lost, or its plan did not
      need it any more. */
  datatype Ending = Lapse(now: Time) | Loss(runner: RunnerId, now: Time) | Withdrawal

  /** Back to the queue, or failed when no attempt is left. */
  function GivenBack(task: Task): Task {
    task.(status := if task.attempt < task.maxAttempts then TaskQueued else TaskFailed,
          token := None, lease := None)
  }

  function EndTask(db: Db, how: Ending, t: TaskId): Db {
    if t !in db.tasks then db else
      var task := db.tasks[t];
      match how
      case Lapse(now) =>
        if !LeaseExpired(task, now) then db
        else
          var returned := SetTask(db, t, GivenBack(task));
          if task.attempt < task.maxAttempts then returned
          else FinalizeTask(ResolveTask(returned, t), t, false, now)
      case Loss(runner, now) =>
        if !task.status.TaskLeased? || task.runner != Some(runner) then db
        else if task.attempt < task.maxAttempts then SetTask(db, t, GivenBack(task).(runner := None))
        else FinalizeTask(SetTask(db, t, GivenBack(task)), t, false, now)
      case Withdrawal =>
        if !Live(task) || task.planStep.None? then db
        else ResolveTask(SetTask(db, t, task.(status := TaskCancelled, token := None, lease := None)), t)
  }

  /** One loop over the rows a query returned, in its order. */
  function EndAll(db: Db, how: Ending, ids: seq<TaskId>): Db {
    if ids == [] then db else EndTask(EndAll(db, how, ids[..|ids|-1]), how, ids[|ids|-1])
  }

  // ----- Claim, renewal, completion ---------------------------------------------------------------

  predicate HasLeased(db: Db, runner: RunnerId) {
    exists t :: t in db.tasks && db.tasks[t].status.TaskLeased? && db.tasks[t].runner == Some(runner)
  }

  /** `expired` are the rows of `expired_leases`; `candidate` is the first queued row open to the runner that
      the runner can execute. A runner that holds a lease gets that task again. */
  function Claim(cfg: Settings, before: Db, runner: RunnerId, runnerToken: Token, expired: seq<TaskId>,
                 candidate: Option<TaskId>, now: Time): Outcome
  {
    var db := EndAll(before, Lapse(now), expired);
    if HasLeased(db, runner) || candidate.None? then Idle(db)
    else
      var t := candidate.value;
      if t !in db.tasks || !db.tasks[t].status.TaskQueued?
         || (db.tasks[t].runner.Some? && db.tasks[t].runner.value != runner)
      then Refused(NotOffered)
      else Accepted(MarkRunning(SetTask(db, t, Leased(cfg, db.tasks[t], runner, runnerToken, now)), t))
  }

  function Leased(cfg: Settings, task: Task, runner: RunnerId, runnerToken: Token, now: Time): Task {
    task.(runner := Some(runner), status := TaskLeased, attempt := task.attempt + 1,
          token := Some(runnerToken), lease := Some(now + cfg.taskLease))
  }

  function OwnershipError(task: Task, runner: RunnerId, token: Token, now: Time): Option<Code> {
    if !task.status.TaskLeased? then Some(TaskNotLeased)
    else if task.runner != Some(runner) || task.token != Some(token) then Some(TaskFenced)
    else if task.lease.None? || task.lease.value <= now then Some(TaskLeaseExpired)
    else None
  }

  function Renew(cfg: Settings, db: Db, t: TaskId, runner: RunnerId, token: Token, now: Time): Outcome {
    if t !in db.tasks then Refused(TaskNotFound)
    else match OwnershipError(db.tasks[t], runner, token, now)
      case Some(code) => Refused(code)
      case None => Accepted(SetTask(db, t, db.tasks[t].(lease := Some(now + cfg.taskLease))))
  }

  function Complete(db: Db, t: TaskId, runner: RunnerId, completion: CompletionId, token: Token, succeeded: bool,
                    now: Time): Outcome
  {
    if t !in db.tasks then Refused(TaskNotFound)
    else if db.tasks[t].completion == Some(completion) then Replayed(db)
    else match OwnershipError(db.tasks[t], runner, token, now)
      case Some(code) => Refused(code)
      case None =>
        var done := db.tasks[t].(status := if succeeded then TaskSucceeded else TaskFailed,
                                 completion := Some(completion), lease := None);
        Accepted(ResolveTask(FinalizeTask(SetTask(db, t, done), t, succeeded, now), t))
  }
}
