/** Dispatch, claim, renewal, completion, expiry and reconciliation of action executions
    (backend/app/services/action_dispatcher.py), and action creation and cancellation as far as the
    execution protocol sees them (backend/app/services/actions.py). */
module ActionDispatcher {
  import opened Common
  import opened Records
  import opened ResourceLocks
  import ActionVerifications

  const EXECUTION_TOKEN: Token := 1

  predicate Expired<S>(e: Execution<S>, now: Time) {
    e.lease.Some? && e.lease.value <= now
  }

  /** The executions `expired_running` selects. */
  function ExpiredRunning(db: Db, now: Time): set<ActionId> {
    set a | a in db.executions && db.executions[a].status.Running? && Expired(db.executions[a], now)
  }

  /** The unreleased locks of the lapsed actions are frozen and end now. */
  function FrozenLocks(locks: map<ResourceId, Lock>, lapsed: set<ActionId>, now: Time): map<ResourceId, Lock> {
    map r | r in locks ::
      if locks[r].owner in lapsed && !locks[r].released then locks[r].(frozen := true, expires := now) else locks[r]
  }

  function LapsedExecutions<S>(executions: map<ActionId, Execution<S>>, lapsed: set<ActionId>, unknown: S)
    : map<ActionId, Execution<S>>
  {
    map a | a in executions ::
      if a in lapsed then executions[a].(status := unknown, lease := None) else executions[a]
  }

  function LapsedActions(actions: map<ActionId, Action>, lapsed: set<ActionId>): map<ActionId, Action> {
    map a | a in actions ::
      if a in lapsed then actions[a].(status := Unknown, version := actions[a].version + 1) else actions[a]
  }

  /** The rows after `recover_expired` has handled the executions of `lapsed`. */
  function RecoverSet(db: Db, lapsed: set<ActionId>, now: Time): Db {
    db.(executions := LapsedExecutions(db.executions, lapsed, Unknown),
        actions := LapsedActions(db.actions, lapsed),
        locks := FrozenLocks(db.locks, lapsed, now))
  }

  function RecoverExpired(db: Db, now: Time): Db {
    RecoverSet(db, ExpiredRunning(db, now), now)
  }

  function SetAction(db: Db, a: ActionId, status: ActionStatus): Db
    requires a in db.actions
  {
    db.(actions := db.actions[a := db.actions[a].(status := status, version := db.actions[a].version + 1)])
  }

  // ----- Life of an action --------------------------------------------------------------------

  function Create(db: Db, a: ActionId, action: Action): Outcome {
    if a in db.actions then Refused(ActionExists)
    else Accepted(db.(actions := db.actions[a := action.(status := Ready, version := 1)]))
  }

  function Cancel(db: Db, a: ActionId, expectedVersion: nat, now: Time): Outcome {
    if a !in db.actions then Refused(ActionNotFound)
    else if db.actions[a].version != expectedVersion then Refused(ActionVersionConflict)
    else if !db.actions[a].status.Ready? then Refused(ActionNotCancellable)
    else
      var cancelled := SetAction(db, a, Cancelled);
      match LockOf(db, a)
      case None => Accepted(cancelled)
      case Some(lock) => Accepted(SetLock(cancelled, a, lock.(released := true, expires := now)))
  }

  /** `runner` is the answer of `_select_runner`. */
  function Dispatch(cfg: Settings, before: Db, a: ActionId, authorised: bool, runner: Option<RunnerId>, now: Time)
    : Outcome
  {
    var db := RecoverExpired(before, now);
    if a !in db.actions then Refused(ActionNotFound)
    else if a in db.executions then Replayed(db)
    else if !db.actions[a].status.Ready? then Refused(ActionNotDispatchable)
    else
      var acquired := Acquire(cfg, db, a, authorised, now);
      if acquired.Refused? then acquired
      else if runner.None? then Refused(RunnerUnavailable)
      else Accepted(Dispatched(acquired.db, a, runner.value))
  }

  function Dispatched(db: Db, a: ActionId, runner: RunnerId): Db {
    if a !in db.actions || db.actions[a].resource !in db.locks then db else
      var e := Execution(runner, Dispatching, EXECUTION_TOKEN, db.locks[db.actions[a].resource].token, None, None);
      SetAction(db, a, Dispatching).(executions := db.executions[a := e])
  }

  /** `candidate` is the row `claim_for_runner` selected. */
  function Claim(cfg: Settings, before: Db, runner: RunnerId, candidate: Option<ActionId>, now: Time): Outcome {
    match candidate
    case None => Idle(RecoverExpired(before, now))
    case Some(a) => ClaimRow(cfg, RecoverExpired(before, now), runner, a, now)
  }

  function ClaimRow(cfg: Settings, db: Db, runner: RunnerId, a: ActionId, now: Time): Outcome {
    if a !in db.executions || db.executions[a].runner != runner || !db.executions[a].status.Dispatching?
    then Refused(NotOffered)
    else if a !in db.actions then Refused(ActionNotFound)
    else
      var lock := LockOf(db, a);
      if lock.None? || lock.value.token != db.executions[a].token then Refused(LockInvalid)
      else Accepted(
        SetLock(SetAction(db, a, Running), a, lock.value.(expires := now + cfg.lockLease))
        .(executions := db.executions[a := db.executions[a].(status := Running,
                                                             lease := Some(now + cfg.executionLease))]))
  }

  /** `_owned_running`: why a request of a runner about an execution is refused, if it is. */
  function OwnershipError(db: Db, a: ActionId, runner: RunnerId, executionToken: Token, token: Token, now: Time)
    : Option<Code>
  {
    if a !in db.executions then Some(ExecutionNotFound)
    else
      var e := db.executions[a];
      if e.runner != runner || e.executionToken != executionToken || e.token != token then Some(ExecutionFenced)
      else if !e.status.Running? then Some(ActionNotRunning)
      else if e.lease.None? || e.lease.value <= now then Some(ExecutionLeaseExpired)
      else
        var lock := LockOf(db, a);
        if lock.None? || lock.value.token != token then Some(LockInvalid) else None
  }

  function Renew(cfg: Settings, db: Db, a: ActionId, runner: RunnerId, executionToken: Token, token: Token,
                 now: Time): Outcome
  {
    match OwnershipError(db, a, runner, executionToken, token, now)
    case Some(code) => Refused(code)
    case None =>
      Accepted(SetLock(db, a, LockOf(db, a).value.(expires := now + cfg.lockLease))
               .(executions := db.executions[a := db.executions[a].(lease := Some(now + cfg.executionLease))]))
  }

  /** `task` is the fresh id of the verification task. */
  function Complete(db: Db, a: ActionId, runner: RunnerId, completion: CompletionId, executionToken: Token,
                    token: Token, succeeded: bool, task: TaskId, now: Time): Outcome
  {
    if a !in db.executions then Refused(ExecutionNotFound)
    else if db.executions[a].completion == Some(completion) then Replayed(db)
    else match OwnershipError(db, a, runner, executionToken, token, now)
      case Some(code) => Refused(code)
      case None =>
        if succeeded && task in db.tasks then Refused(NotOffered)
        else Accepted(Completed(db, a, LockOf(db, a).value, runner, completion, succeeded, task, now))
  }

  function Completed(db: Db, a: ActionId, lock: Lock, runner: RunnerId, completion: CompletionId, succeeded: bool,
                     task: TaskId, now: Time): Db
    requires a in db.actions && a in db.executions
  {
    var e := db.executions[a].(status := if succeeded then Applied else Failed,
                               completion := Some(completion), lease := None);
    var closed := SetAction(db, a, if succeeded then Verifying else Failed).(executions := db.executions[a := e]);
    if succeeded then
      ActionVerifications.Create(SetLock(closed, a, lock.(frozen := true, expires := now)), a, runner, task)
    else SetLock(closed, a, lock.(released := true, expires := now))
  }

  function Reconcile(db: Db, a: ActionId, expectedVersion: nat, succeeded: bool, now: Time): Outcome {
    if a !in db.actions || a !in db.executions then Refused(ActionNotFound)
    else if db.actions[a].version != expectedVersion then Refused(ActionVersionConflict)
    else if !db.actions[a].status.Unknown? then Refused(ActionNotReconcilable)
    else
      match LockOf(db, a)
      case None => Accepted(Settled(db, a, succeeded))
      case Some(lock) => Accepted(SetLock(Settled(db, a, succeeded), a,
                                          lock.(frozen := false, released := true, expires := now)))
  }

  function Settled(db: Db, a: ActionId, succeeded: bool): Db
    requires a in db.actions && a in db.executions
  {
    var target := if succeeded then Succeeded else Failed;
    SetAction(db, a, target).(executions := db.executions[a := db.executions[a].(status := target)])
  }
}
