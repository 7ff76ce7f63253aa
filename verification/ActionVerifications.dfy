/** Verification of applied actions by bounded runner tasks (backend/app/services/action_verifications.py). */
module ActionVerifications {
  import opened Common
  import opened Records
  import opened ResourceLocks

  const VERIFICATION_ATTEMPTS := 3

  /** A verification and its task; an existing verification is kept. */
  function Create(db: Db, a: ActionId, runner: RunnerId, task: TaskId): Db {
    if a in db.verifications then db else
      db.(verifications := db.verifications[a := Verification(Queued, false, task)],
          tasks := db.tasks[task := Task(None, Some(a), None, Some(runner), TaskQueued, 0,
                                         VERIFICATION_ATTEMPTS, None, None, None)])
  }

  function MarkRunning(db: Db, t: TaskId): Db {
    var v := if t in db.tasks then db.tasks[t].verification else None;
    if v.None? || v.value !in db.verifications || !db.verifications[v.value].status.Queued? then db
    else db.(verifications := db.verifications[v.value := db.verifications[v.value].(status := Checking)])
  }

  predicate Terminal(v: Verification) {
    v.status.Passed? || v.status.NotPassed?
  }

  /** The verification a task's result decides: there is one and it is still open. */
  predicate Decides(db: Db, t: TaskId) {
    t in db.tasks &&
    var v := db.tasks[t].verification;
    v.Some? && v.value in db.verifications && !Terminal(db.verifications[v.value])
  }

  /** `finalize_task`: retry the verification, or decide it and with it the action. The task row already
      holds the result. */
  function FinalizeTask(db: Db, t: TaskId, succeeded: bool, now: Time): Db {
    if !Decides(db, t) then db else
      var task := db.tasks[t];
      var a := task.verification.value;
      var v := db.verifications[a];
      if !succeeded && task.attempt < task.maxAttempts then
        db.(tasks := db.tasks[t := task.(status := TaskQueued, runner := None, token := None, lease := None)],
            verifications := db.verifications[a := v.(status := Queued)])
      else if a !in db.actions || a !in db.executions then db
      else Decided(db, a, succeeded, now)
  }

  function Decided(db: Db, a: ActionId, passed: bool, now: Time): Db
    requires a in db.actions && a in db.executions && a in db.verifications
  {
    var action, target := db.actions[a], if passed then Succeeded else VerificationFailed;
    var decided := db.(
      verifications := db.verifications[a := db.verifications[a].(
        status := if passed then Passed else NotPassed,
        compensationRequired := !passed && action.rollback.Some?)],
      actions := db.actions[a := action.(status := target, version := action.version + 1)],
      executions := db.executions[a := db.executions[a].(status := target)]);
    match LockOf(db, a)
    case None => decided
    case Some(lock) =>
      SetLock(decided, a, if passed then lock.(released := true, frozen := false, expires := now)
                          else lock.(frozen := true, expires := now))
  }
}
