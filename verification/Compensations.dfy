/** Compensation of failed verifications under the frozen lock of the action
    (backend/app/services/compensations.py). An action has at most one compensation, so it carries the
    action's id. */
module Compensations {
  import opened Common
  import opened Records
  import opened ResourceLocks
  import opened ActionDispatcher
  import InvestigationHitl

  function SetCompensation(db: Db, a: ActionId, status: CompensationStatus): Db
    requires a in db.compensations
  {
    var c := db.compensations[a];
    db.(compensations := db.compensations[a := c.(status := status, version := c.version + 1)])
  }

  /** The compensation with an idempotency key, if `holder` is one. */
  predicate HasKey(db: Db, holder: ActionId, key: nat) {
    holder in db.compensations && db.compensations[holder].key == key
  }

  /** `holder` is the answer of `get_by_key`. The fingerprint is that of the action and its parameters. */
  function Create(db: Db, a: ActionId, parameters: nat, key: nat, holder: Option<ActionId>, actor: nat,
                  expires: Time): Outcome
  {
    if a !in db.actions then Refused(ActionNotFound)
    else
      var action := db.actions[a];
      if !action.status.VerificationFailed? || a !in db.verifications
         || !db.verifications[a].compensationRequired || action.rollback.None?
      then Refused(CompensationNotRequired)
      else if action.rollback.value != action.capability then Refused(CompensationCapabilityUnsupported)
      else if parameters != action.parameters then Refused(CompensationParametersInvalid)
      else if holder.Some? && !HasKey(db, holder.value, key) then Refused(NotOffered)
      else if holder.Some? && holder.value != a then Refused(CompensationIdempotencyConflict)
      else if holder.Some? then Replayed(db)
      else if a in db.compensations then Refused(CompensationAlreadyExists)
      else Accepted(db.(compensations := db.compensations[a := Compensation(CompPending, key, actor, expires, 1)]))
  }

  /** `allowed` is the answer of `revalidate_snapshot`, `run` the run whose wait the decision resolves. */
  function Decide(db: Db, a: ActionId, approve: bool, expectedVersion: nat, actor: Option<nat>, allowed: bool,
                  run: Option<RunId>, now: Time): Outcome
  {
    if a !in db.compensations then Refused(CompensationNotFound)
    else
      var c := db.compensations[a];
      if c.version != expectedVersion then Refused(CompensationVersionConflict)
      else if !c.status.CompPending? then Refused(CompensationAlreadyResolved)
      else if c.expires > now && approve && actor == Some(c.requestedBy) then Refused(SelfApprovalForbidden)
      else if c.expires > now && approve && !allowed then Refused(PolicyRevalidationFailed)
      else InvestigationHitl.ResolveSubject(
          SetCompensation(db, a, if c.expires > now && approve then CompApproved else CompRejected),
          Subject(CompensationSubject, a), run)
  }

  function Dispatch(before: Db, a: ActionId, expectedVersion: nat, runner: Option<RunnerId>, now: Time): Outcome {
    DispatchRow(RecoverExpired(before, now), a, expectedVersion, runner, now)
  }

  function DispatchRow(db: Db, a: ActionId, expectedVersion: nat, runner: Option<RunnerId>, now: Time): Outcome {
    if a !in db.compensations then Refused(CompensationNotFound)
    else if db.compensations[a].version != expectedVersion then Refused(CompensationVersionConflict)
    else if a in db.compExecutions then Replayed(db)
    else if !db.compensations[a].status.CompApproved? then Refused(CompensationNotApproved)
    else if db.compensations[a].expires <= now then Refused(CompensationApprovalExpired)
    else
      var lock := LockOf(db, a);
      if lock.None? || !lock.value.frozen then Refused(LockInvalid)
      else if runner.None? then Refused(RunnerUnavailable)
      else Accepted(Dispatched(db, a, runner.value, lock.value.token))
  }

  function Dispatched(db: Db, a: ActionId, runner: RunnerId, token: Token): Db
    requires a in db.compensations && a in db.actions
  {
    SetAction(SetCompensation(db, a, CompDispatching), a, Compensating)
    .(compExecutions := db.compExecutions[a := Execution(runner, CompDispatching, EXECUTION_TOKEN, token, None, None)])
  }

  function Claim(cfg: Settings, before: Db, runner: RunnerId, candidate: Option<ActionId>, now: Time): Outcome {
    match candidate
    case None => Idle(RecoverExpired(before, now))
    case Some(a) => ClaimRow(cfg, RecoverExpired(before, now), runner, a, now)
  }

  function ClaimRow(cfg: Settings, db: Db, runner: RunnerId, a: ActionId, now: Time): Outcome {
    if a !in db.compExecutions || db.compExecutions[a].runner != runner
       || !db.compExecutions[a].status.CompDispatching?
    then Refused(NotOffered)
    else if a !in db.compensations then Refused(CompensationNotFound)
    else
      var e, lock := db.compExecutions[a], LockOf(db, a);
      if lock.None? || lock.value.token != e.token then Refused(LockInvalid)
      else Accepted(
        SetLock(SetCompensation(db, a, CompRunning), a, lock.value.(expires := now + cfg.lockLease))
        .(compExecutions := db.compExecutions[a := e.(status := CompRunning,
                                                      lease := Some(now + cfg.executionLease))]))
  }

  /** `_owned`. */
  function OwnershipError(db: Db, a: ActionId, runner: RunnerId, executionToken: Token, token: Token, now: Time)
    : Option<Code>
  {
    if a !in db.compExecutions then Some(ExecutionNotFound)
    else
      var e := db.compExecutions[a];
      if e.runner != runner || e.executionToken != executionToken || e.token != token then Some(ExecutionFenced)
      else if !e.status.CompRunning? || e.lease.None? || e.lease.value <= now then Some(ActionNotRunning)
      else if a !in db.compensations then Some(CompensationNotFound)
      else
        var lock := LockOf(db, a);
        if lock.None? || lock.value.token != token then Some(LockInvalid) else None
  }

  function Renew(cfg: Settings, db: Db, a: ActionId, runner: RunnerId, executionToken: Token, token: Token,
                 now: Time): Outcome
  {
    match OwnershipError(db, a, runner, executionToken, token, now)
    case Some(code) => Refused(code)
    case None =>
      Accepted(SetLock(db, a, LockOf(db, a).value.(expires := now + cfg.lockLease))
               .(compExecutions := db.compExecutions[a :=
                   db.compExecutions[a].(lease := Some(now + cfg.executionLease))]))
  }

  function Complete(db: Db, a: ActionId, runner: RunnerId, completion: CompletionId, executionToken: Token,
                    token: Token, succeeded: bool, now: Time): Outcome
  {
    if a !in db.compExecutions then Refused(ExecutionNotFound)
    else if db.compExecutions[a].completion == Some(completion) then Replayed(db)
    else match OwnershipError(db, a, runner, executionToken, token, now)
      case Some(code) => Refused(code)
      case None =>
        Accepted(Completed(db, a, LockOf(db, a).value, completion, succeeded, now))
  }

  function Completed(db: Db, a: ActionId, lock: Lock, completion: CompletionId, succeeded: bool, now: Time): Db
    requires a in db.compExecutions && a in db.compensations && a in db.actions
  {
    var e := db.compExecutions[a].(status := if succeeded then CompSucceeded else CompFailed,
                                   completion := Some(completion), lease := None);
    SetLock(SetAction(SetCompensation(db, a, if succeeded then CompSucceeded else CompEscalated),
                      a, if succeeded then Compensated else Escalated),
            a, if succeeded then lock.(frozen := false, released := true, expires := now)
               else lock.(frozen := true, expires := now))
    .(compExecutions := db.compExecutions[a := e])
  }

  function Escalate(db: Db, a: ActionId, expectedVersion: nat): Outcome {
    if a !in db.compensations then Refused(CompensationNotFound)
    else
      var c := db.compensations[a];
      if c.version != expectedVersion then Refused(CompensationVersionConflict)
      else if !(c.status.CompApproved? || c.status.CompRejected? || c.status.CompFailed? || c.status.CompUnknown?)
      then Refused(CompensationNotEscalatable)
      else
        Accepted(SetCompensation(if a in db.actions then SetAction(db, a, Escalated) else db, a, CompEscalated))
  }

  function ExpiredRunning(db: Db, now: Time): set<ActionId> {
    set a | a in db.compExecutions && db.compExecutions[a].status.CompRunning? && Expired(db.compExecutions[a], now)
  }

  function LapsedCompensations(compensations: map<ActionId, Compensation>, lapsed: set<ActionId>)
    : map<ActionId, Compensation>
  {
    map a | a in compensations ::
      if a in lapsed then compensations[a].(status := CompUnknown, version := compensations[a].version + 1)
      else compensations[a]
  }

  function RecoverSet(db: Db, lapsed: set<ActionId>, now: Time): Db {
    db.(compExecutions := LapsedExecutions(db.compExecutions, lapsed, CompUnknown),
        compensations := LapsedCompensations(db.compensations, lapsed),
        locks := FrozenLocks(db.locks, lapsed, now))
  }

  /** `recover_expired` of the compensation service. */
  function RecoverExpired(db: Db, now: Time): Db {
    RecoverSet(db, ExpiredRunning(db, now), now)
  }
}
