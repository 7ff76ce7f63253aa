/** What an accepted request does to the rows it is about, in terms of its own arguments. The services promise these
    effects; they are proved of the requests' specifications. */
module Effects {
  import opened Common
  import opened Records
  import opened ActionInvariants
  import opened RunnerTasks
  import ActionDispatcher
  import ActionVerifications
  import Compensations
  import InvestigationHitl
  import Investigations
  import ResourceLocks
  import RunInvariants
  import TaskPreservation

  /** The lock of an action's resource. */
  function LockFor(db: Db, a: ActionId): Option<Lock> {
    if a in db.actions && db.actions[a].resource in db.locks then Some(db.locks[db.actions[a].resource]) else None
  }

  predicate Owned(db: Db, a: ActionId) {
    LockFor(db, a).Some? && LockFor(db, a).value.owner == a
  }

  /** The action owns its resource's lock, frozen and unreleased, under the same token as before. */
  predicate KeepsFrozenLock(db: Db, db': Db, a: ActionId) {
    && Owned(db', a) && !LockFor(db', a).value.released && LockFor(db', a).value.frozen
    && LockFor(db, a).Some? && LockFor(db', a).value.token == LockFor(db, a).value.token
  }

  /** The action has let go of its resource's lock, which is free for others. */
  predicate GivesUpLock(db': Db, a: ActionId) {
    Owned(db', a) && LockFor(db', a).value.released && !LockFor(db', a).value.frozen
  }

  predicate ActionIs(db: Db, a: ActionId, action: ActionStatus, execution: ActionStatus) {
    a in db.actions && db.actions[a].status == action && a in db.executions && db.executions[a].status == execution
  }

  lemma HeldLock(db: Db, a: ActionId)
    ensures var held := ResourceLocks.LockOf(db, a);
            && (held.Some? <==> Owned(db, a) && !LockFor(db, a).value.released)
            && (held.Some? ==> held == LockFor(db, a))
  {
  }

  lemma StoredLock(db: Db, a: ActionId, lock: Lock)
    requires a in db.actions
    ensures LockFor(ResourceLocks.SetLock(db, a, lock), a) == Some(lock)
    ensures ResourceLocks.SetLock(db, a, lock).actions == db.actions
    ensures ResourceLocks.SetLock(db, a, lock).executions == db.executions
  {
  }

  // ----- Executions --------------------------------------------------------------------------------------------

  /** A reported success is verified under the frozen lock by a new task with three attempts; a reported failure fails
      the action and frees the lock. Nothing else answers either report. */
  predicate CompletionSettled(db: Db, db': Db, a: ActionId, id: CompletionId, succeeded: bool, task: TaskId) {
    && ActionIs(db, a, Running, Running)
    && a in db'.executions && db'.executions[a].completion == Some(id) && db'.executions[a].lease.None?
    && (succeeded <==>
          && ActionIs(db', a, Verifying, Applied) && KeepsFrozenLock(db, db', a)
          && a !in db.verifications && a in db'.verifications && db'.verifications[a].status.Queued?
          && db'.verifications[a].task == task && !db'.verifications[a].compensationRequired
          && task !in db.tasks && task in db'.tasks && db'.tasks[task].verification == Some(a)
          && db'.tasks[task].status.TaskQueued? && db'.tasks[task].attempt == 0 && db'.tasks[task].maxAttempts == 3)
    && (!succeeded <==>
          && ActionIs(db', a, Failed, Failed) && GivesUpLock(db', a)
          && db'.verifications == db.verifications && db'.tasks == db.tasks)
  }

  lemma RunningHasNoVerification(db: Db, a: ActionId)
    requires Inv(db) && a in db.executions && db.executions[a].status.Running?
    ensures ActionIs(db, a, Running, Running) && a !in db.verifications
    ensures Owned(db, a) ==> !LockFor(db, a).value.frozen
  {
    hide Inv, LockOk, CompensationOk;
    TableFacts(db);
    CaseFacts(db, a);
  }

  lemma CompletionSettles(db: Db, a: ActionId, runner: RunnerId, id: CompletionId, x: Token, token: Token,
                          succeeded: bool, task: TaskId, now: Time)
    requires Inv(db)
    ensures var o := ActionDispatcher.Complete(db, a, runner, id, x, token, succeeded, task, now);
            o.Accepted? ==> CompletionSettled(db, o.db, a, id, succeeded, task)
  {
    hide Inv;
    if ActionDispatcher.Complete(db, a, runner, id, x, token, succeeded, task, now).Accepted? {
      RunningHasNoVerification(db, a);
    }
  }

  /** The outcome of a reconciliation is the one it was given; a lock the action still owns is freed. */
  predicate ReconciliationSettled(db: Db, db': Db, a: ActionId, succeeded: bool) {
    && (succeeded <==> ActionIs(db', a, Succeeded, Succeeded)) && (!succeeded <==> ActionIs(db', a, Failed, Failed))
    && (ResourceLocks.LockOf(db, a).Some? ==> GivesUpLock(db', a))
    && (ResourceLocks.LockOf(db, a).None? ==> db'.locks == db.locks)
  }

  lemma SettledIs(db: Db, a: ActionId, succeeded: bool)
    requires a in db.actions && a in db.executions
    ensures var settled := ActionDispatcher.Settled(db, a, succeeded);
            && ActionIs(settled, a, if succeeded then Succeeded else Failed, if succeeded then Succeeded else Failed)
            && settled.locks == db.locks && settled.actions[a].resource == db.actions[a].resource
  {
  }

  lemma ReconciliationSettles(db: Db, a: ActionId, version: nat, succeeded: bool, now: Time)
    ensures var o := ActionDispatcher.Reconcile(db, a, version, succeeded, now);
            o.Accepted? ==> ReconciliationSettled(db, o.db, a, succeeded)
  {
    hide ResourceLocks.LockOf, ResourceLocks.SetLock, ActionDispatcher.Settled;
    if ActionDispatcher.Reconcile(db, a, version, succeeded, now).Accepted? {
      HeldLock(db, a);
      SettledIs(db, a, succeeded);
      if ResourceLocks.LockOf(db, a).Some? {
        StoredLock(ActionDispatcher.Settled(db, a, succeeded), a,
                   ResourceLocks.LockOf(db, a).value.(frozen := false, released := true, expires := now));
      }
    }
  }

  /** The execution runs: its lease and its lock's end exactly one period later. */
  predicate RunsUntil<S>(cfg: Settings, db: Db, executions: map<ActionId, Execution<S>>, a: ActionId, now: Time) {
    && a in executions && executions[a].lease == Some(now + cfg.executionLease)
    && Owned(db, a) && !LockFor(db, a).value.released && LockFor(db, a).value.token == executions[a].token
    && LockFor(db, a).value.expires == now + cfg.lockLease
  }

  lemma RenewalExtends(cfg: Settings, db: Db, a: ActionId, runner: RunnerId, x: Token, token: Token, now: Time)
    requires Inv(db)
    ensures var o := ActionDispatcher.Renew(cfg, db, a, runner, x, token, now);
            o.Accepted? ==> Started(cfg, o.db, a, runner, now)
  {
    hide Inv;
    if ActionDispatcher.Renew(cfg, db, a, runner, x, token, now).Accepted? {
      RunningHasNoVerification(db, a);
    }
  }

  /** The action runs on the runner. */
  predicate Started(cfg: Settings, db: Db, a: ActionId, runner: RunnerId, now: Time) {
    RunsUntil(cfg, db, db.executions, a, now) && ActionIs(db, a, Running, Running) && db.executions[a].runner == runner
  }

  lemma ClaimRowStarts(cfg: Settings, db: Db, runner: RunnerId, a: ActionId, now: Time)
    ensures var o := ActionDispatcher.ClaimRow(cfg, db, runner, a, now);
            o.Accepted? ==> Started(cfg, o.db, a, runner, now)
  {
  }

  lemma ClaimStarts(cfg: Settings, db: Db, runner: RunnerId, candidate: Option<ActionId>, now: Time)
    ensures var o := ActionDispatcher.Claim(cfg, db, runner, candidate, now);
            o.Accepted? ==> candidate.Some? && Started(cfg, o.db, candidate.value, runner, now)
  {
    hide ActionDispatcher.ClaimRow, Started;
    if candidate.Some? {
      ClaimRowStarts(cfg, ActionDispatcher.RecoverExpired(db, now), runner, candidate.value, now);
    }
  }

  /** The action waits for its runner under its resource's lock. */
  predicate DispatchedTo(db: Db, a: ActionId, runner: RunnerId) {
    && ActionIs(db, a, Dispatching, Dispatching) && db.executions[a].runner == runner
    && db.executions[a].lease.None? && db.executions[a].completion.None?
    && Owned(db, a) && LockFor(db, a).value.token == db.executions[a].token && !LockFor(db, a).value.released
  }

  lemma GrantHolds(db: Db, a: ActionId, lock: Lock)
    requires a in db.actions
    ensures LockFor(ResourceLocks.Grant(db, a, lock), a) == Some(lock)
    ensures ResourceLocks.Grant(db, a, lock).actions == db.actions
    ensures ResourceLocks.Grant(db, a, lock).executions == db.executions
  {
  }

  lemma AcquisitionHolds(cfg: Settings, db: Db, a: ActionId, authorised: bool, now: Time)
    requires !ResourceLocks.Acquire(cfg, db, a, authorised, now).Refused?
    ensures var db' := ResourceLocks.Acquire(cfg, db, a, authorised, now).db;
            Owned(db', a) && !LockFor(db', a).value.released && now <= LockFor(db', a).value.expires
            && db'.actions == db.actions && db'.executions == db.executions
  {
    hide ResourceLocks.Grant;
    GrantHolds(db, a, Lock(a, 1, now + cfg.lockLease, false, false));
    if LockFor(db, a).Some? {
      GrantHolds(db, a, LockFor(db, a).value.(owner := a, token := LockFor(db, a).value.token + 1,
                                              expires := now + cfg.lockLease, released := false));
    }
  }

  lemma DispatchStarts(cfg: Settings, db: Db, a: ActionId, authorised: bool, runner: Option<RunnerId>, now: Time)
    ensures var o := ActionDispatcher.Dispatch(cfg, db, a, authorised, runner, now);
            o.Accepted? ==> runner.Some? && DispatchedTo(o.db, a, runner.value)
  {
    hide ResourceLocks.Acquire;
    if ActionDispatcher.Dispatch(cfg, db, a, authorised, runner, now).Accepted? {
      AcquisitionHolds(cfg, ActionDispatcher.RecoverExpired(db, now), a, authorised, now);
    }
  }

  /** The action is cancelled and holds no lock. */
  predicate Cancelled(db: Db, a: ActionId) {
    a in db.actions && db.actions[a].status.Cancelled? && (Owned(db, a) ==> LockFor(db, a).value.released)
  }

  lemma CancellationEnds(db: Db, a: ActionId, version: nat, now: Time)
    ensures var o := ActionDispatcher.Cancel(db, a, version, now);
            o.Accepted? ==> Cancelled(o.db, a)
  {
    hide ResourceLocks.LockOf, ResourceLocks.SetLock;
    if ActionDispatcher.Cancel(db, a, version, now).Accepted? {
      HeldLock(db, a);
      if ResourceLocks.LockOf(db, a).Some? {
        StoredLock(ActionDispatcher.SetAction(db, a, ActionStatus.Cancelled), a,
                   ResourceLocks.LockOf(db, a).value.(released := true, expires := now));
      }
    }
  }

  /** Recovery makes exactly the running executions whose lease is over unknown. */
  predicate OnlyLapsed(db: Db, db': Db, now: Time) {
    && db'.executions.Keys == db.executions.Keys && db'.actions.Keys == db.actions.Keys
    && (forall a :: a in db.executions ==>
          var e := db.executions[a];
          if e.status.Running? && e.lease.Some? && e.lease.value <= now then
            && db'.executions[a].status.Unknown? && db'.executions[a].lease.None?
            && (a in db.actions ==> db'.actions[a].status.Unknown?)
            && (Owned(db, a) && !LockFor(db, a).value.released ==>
                  Owned(db', a) && LockFor(db', a).value.frozen && LockFor(db', a).value.expires == now)
          else
            && db'.executions[a] == e
            && (a in db.actions ==> db'.actions[a] == db.actions[a]))
    && (forall a :: a in db.actions && a !in db.executions ==> db'.actions[a] == db.actions[a])
  }

  lemma RecoveryLapses(db: Db, now: Time)
    ensures OnlyLapsed(db, ActionDispatcher.RecoverExpired(db, now), now)
  {
  }

  // ----- Compensations -------------------------------------------------------------------------------------------

  predicate CompensationIs(db: Db, a: ActionId, compensation: CompensationStatus, action: ActionStatus) {
    && a in db.compensations && db.compensations[a].status == compensation
    && a in db.actions && db.actions[a].status == action
  }

  predicate CompExecutionIs(db: Db, a: ActionId, status: CompensationStatus) {
    a in db.compExecutions && db.compExecutions[a].status == status
  }

  /** A reported success compensates the action and frees its lock; a reported failure escalates it and leaves the lock
      frozen. */
  predicate CompensationSettled(db: Db, db': Db, a: ActionId, id: CompletionId, succeeded: bool) {
    && a in db'.compExecutions && db'.compExecutions[a].completion == Some(id) && db'.compExecutions[a].lease.None?
    && (succeeded <==>
          && CompensationIs(db', a, CompSucceeded, Compensated) && CompExecutionIs(db', a, CompSucceeded)
          && GivesUpLock(db', a))
    && (!succeeded <==>
          && CompensationIs(db', a, CompEscalated, Escalated) && CompExecutionIs(db', a, CompFailed)
          && KeepsFrozenLock(db, db', a))
  }

  lemma CompensationSettles(db: Db, a: ActionId, runner: RunnerId, id: CompletionId, x: Token, token: Token,
                            succeeded: bool, now: Time)
    ensures var o := Compensations.Complete(db, a, runner, id, x, token, succeeded, now);
            o.Accepted? ==> CompensationSettled(db, o.db, a, id, succeeded)
  {
  }

  /** The compensation is approved exactly if that was asked for before its approval expired, and rejected otherwise. */
  predicate DecisionSettled(db: Db, db': Db, a: ActionId, approve: bool, actor: Option<nat>, allowed: bool, now: Time) {
    && a in db.compensations && a in db'.compensations && db.compensations[a].status.CompPending?
    && db'.actions == db.actions && db'.locks == db.locks
    && (db'.compensations[a].status.CompApproved? <==> approve && now < db.compensations[a].expires)
    && (db'.compensations[a].status.CompRejected? <==> !(approve && now < db.compensations[a].expires))
    && (db'.compensations[a].status.CompApproved? ==> actor != Some(db.compensations[a].requestedBy) && allowed)
  }

  lemma DecisionSettles(db: Db, a: ActionId, approve: bool, version: nat, actor: Option<nat>, allowed: bool,
                        run: Option<RunId>, now: Time)
    ensures var o := Compensations.Decide(db, a, approve, version, actor, allowed, run, now);
            o.Accepted? ==> DecisionSettled(db, o.db, a, approve, actor, allowed, now)
  {
  }

  lemma CompensationRenewalExtends(cfg: Settings, db: Db, a: ActionId, runner: RunnerId, x: Token, token: Token,
                                   now: Time)
    requires Inv(db)
    ensures var o := Compensations.Renew(cfg, db, a, runner, x, token, now);
            o.Accepted? ==> CompensationStarted(cfg, o.db, a, runner, now)
  {
    hide Inv;
    if Compensations.Renew(cfg, db, a, runner, x, token, now).Accepted? {
      RunningCompensation(db, a);
    }
  }

  lemma RunningCompensation(db: Db, a: ActionId)
    requires Inv(db) && CompExecutionIs(db, a, CompRunning)
    ensures a in db.compensations && db.compensations[a].status.CompRunning?
  {
    hide Inv, LockOk, VerificationOk, ExecutionOk, LockStateOk;
    TableFacts(db);
    CaseFacts(db, a);
  }

  /** The compensation runs on the runner. */
  predicate CompensationStarted(cfg: Settings, db: Db, a: ActionId, runner: RunnerId, now: Time) {
    && RunsUntil(cfg, db, db.compExecutions, a, now) && CompExecutionIs(db, a, CompRunning)
    && db.compExecutions[a].runner == runner && a in db.compensations && db.compensations[a].status.CompRunning?
  }

  lemma CompensationClaimRowStarts(cfg: Settings, db: Db, runner: RunnerId, a: ActionId, now: Time)
    ensures var o := Compensations.ClaimRow(cfg, db, runner, a, now);
            o.Accepted? ==> CompensationStarted(cfg, o.db, a, runner, now)
  {
  }

  lemma CompensationClaimStarts(cfg: Settings, db: Db, runner: RunnerId, candidate: Option<ActionId>, now: Time)
    ensures var o := Compensations.Claim(cfg, db, runner, candidate, now);
            o.Accepted? ==> candidate.Some? && CompensationStarted(cfg, o.db, candidate.value, runner, now)
  {
    hide Compensations.ClaimRow, CompensationStarted;
    if candidate.Some? {
      CompensationClaimRowStarts(cfg, Compensations.RecoverExpired(db, now), runner, candidate.value, now);
    }
  }

  /** The compensation waits for its runner under the frozen lock and its token. */
  predicate CompensationDispatchedTo(db: Db, a: ActionId, runner: RunnerId) {
    && CompensationIs(db, a, CompDispatching, Compensating) && CompExecutionIs(db, a, CompDispatching)
    && db.compExecutions[a].runner == runner && db.compExecutions[a].lease.None?
    && Owned(db, a) && !LockFor(db, a).value.released && LockFor(db, a).value.frozen
    && db.compExecutions[a].token == LockFor(db, a).value.token
  }

  lemma CompensationDispatchRowStarts(db: Db, a: ActionId, version: nat, runner: Option<RunnerId>, now: Time)
    ensures var o := Compensations.DispatchRow(db, a, version, runner, now);
            o.Accepted? ==> runner.Some? && CompensationDispatchedTo(o.db, a, runner.value)
  {
  }

  lemma CompensationDispatchStarts(db: Db, a: ActionId, version: nat, runner: Option<RunnerId>, now: Time)
    ensures var o := Compensations.Dispatch(db, a, version, runner, now);
            o.Accepted? ==> runner.Some? && CompensationDispatchedTo(o.db, a, runner.value)
  {
    hide Compensations.DispatchRow, CompensationDispatchedTo;
    if Compensations.Dispatch(db, a, version, runner, now).Accepted? {
      CompensationDispatchRowStarts(Compensations.RecoverExpired(db, now), a, version, runner, now);
    }
  }

  lemma EscalationSettles(db: Db, a: ActionId, version: nat)
    requires Inv(db)
    ensures var o := Compensations.Escalate(db, a, version);
            o.Accepted? ==> CompensationIs(o.db, a, CompEscalated, Escalated) && o.db.locks == db.locks
  {
    hide Inv;
    if Compensations.Escalate(db, a, version).Accepted? {
      TableFacts(db);
    }
  }

  // ----- Verifications and their tasks -----------------------------------------------------------------------------

  /** A passed verification makes its action succeed and frees the lock; a failed one leaves the lock frozen and asks
      for a compensation exactly if the action supports one. */
  predicate VerificationDecided(db: Db, db': Db, a: ActionId, passed: bool) {
    && a in db.actions && a in db'.verifications
    && (passed <==>
          db'.verifications[a].status.Passed? && ActionIs(db', a, Succeeded, Succeeded) && GivesUpLock(db', a))
    && (!passed <==>
          && db'.verifications[a].status.NotPassed? && ActionIs(db', a, VerificationFailed, VerificationFailed)
          && KeepsFrozenLock(db, db', a)
          && (db'.verifications[a].compensationRequired <==> db.actions[a].rollback.Some?))
  }

  lemma DecidingSettles(db: Db, a: ActionId, passed: bool, now: Time)
    requires a in db.actions && a in db.executions && a in db.verifications && ResourceLocks.LockOf(db, a).Some?
    ensures VerificationDecided(db, ActionVerifications.Decided(db, a, passed, now), a, passed)
  {
    HeldLock(db, a);
  }

  /** Nothing about actions changes. */
  predicate ActionsStay(db: Db, db': Db) {
    db'.actions == db.actions && db'.executions == db.executions && db'.locks == db.locks
  }

  /** What the end of a task means for it and for its verification: with attempts left a failed verification is queued
      again and its action goes on verifying; otherwise the result is the task's and decides the verification. */
  predicate TaskSettled(db: Db, db': Db, t: TaskId, succeeded: bool) {
    && t in db.tasks && t in db'.tasks
    && db'.tasks[t].attempt == db.tasks[t].attempt && db'.tasks[t].maxAttempts == db.tasks[t].maxAttempts
    && match db.tasks[t].verification
       case None =>
         && (succeeded <==> db'.tasks[t].status.TaskSucceeded?) && (!succeeded <==> db'.tasks[t].status.TaskFailed?)
         && ActionsStay(db, db') && db'.verifications == db.verifications
       case Some(a) =>
         if !succeeded && db.tasks[t].attempt < db.tasks[t].maxAttempts then
           && db'.tasks[t].status.TaskQueued? && db'.tasks[t].runner.None? && db'.tasks[t].lease.None?
           && a in db'.verifications && db'.verifications[a].status.Queued?
           && ActionsStay(db, db') && ActionIs(db', a, Verifying, Applied)
         else
           && (succeeded <==> db'.tasks[t].status.TaskSucceeded?) && (!succeeded <==> db'.tasks[t].status.TaskFailed?)
           && VerificationDecided(db, db', a, succeeded)
  }

  lemma VerifyingCase(db: Db, t: TaskId)
    requires Inv(db) && t in db.tasks && db.tasks[t].verification.Some? && Live(db.tasks[t])
    ensures var a := db.tasks[t].verification.value;
            && a in db.verifications && db.verifications[a].task == t
            && !ActionVerifications.Terminal(db.verifications[a])
            && ActionIs(db, a, Verifying, Applied) && ResourceLocks.LockOf(db, a).Some?
  {
    hide Inv, LockOk, CompensationOk, ResourceLocks.LockOf;
    TaskPreservation.LiveTaskCase(db, t);
    var a := db.tasks[t].verification.value;
    CaseFacts(db, a);
    HeldLock(db, a);
  }

  /** Storing a result of a leased task and finalising its verification. */
  lemma FinalizingSettles(db: Db, t: TaskId, done: Task, succeeded: bool, now: Time)
    requires Inv(db) && t in db.tasks && db.tasks[t].status.TaskLeased?
    requires done.verification == db.tasks[t].verification && done.attempt == db.tasks[t].attempt
    requires done.maxAttempts == db.tasks[t].maxAttempts
    requires if succeeded then done.status.TaskSucceeded? else done.status.TaskFailed?
    ensures var db' := ActionVerifications.FinalizeTask(SetTask(db, t, done), t, succeeded, now);
            && TaskSettled(db, db', t, succeeded) && db'.tasks[t].completion == done.completion
  {
    hide Inv, ActionVerifications.Decided, ActionIs, VerificationDecided, ResourceLocks.LockOf;
    if done.verification.Some? {
      var a, stored := done.verification.value, SetTask(db, t, done);
      VerifyingCase(db, t);
      StoredTask(db, t, done, a);
      if succeeded || done.attempt >= done.maxAttempts {
        DecidingSettles(stored, a, succeeded, now);
        DecidedElsewhere(db, stored, a, succeeded, now);
      } else {
        RetriedStays(db, stored, t, a, now);
      }
    }
  }

  lemma StoredTask(db: Db, t: TaskId, done: Task, a: ActionId)
    requires ActionIs(db, a, Verifying, Applied)
    ensures ResourceLocks.LockOf(SetTask(db, t, done), a) == ResourceLocks.LockOf(db, a)
    ensures a in SetTask(db, t, done).actions && a in SetTask(db, t, done).executions
  {
  }

  lemma DecidedElsewhere(db: Db, stored: Db, a: ActionId, passed: bool, now: Time)
    requires stored == db.(tasks := stored.tasks) && a in db.actions && a in db.executions && a in db.verifications
    requires VerificationDecided(stored, ActionVerifications.Decided(stored, a, passed, now), a, passed)
    ensures VerificationDecided(db, ActionVerifications.Decided(stored, a, passed, now), a, passed)
    ensures ActionVerifications.Decided(stored, a, passed, now).tasks == stored.tasks
  {
    hide ActionVerifications.Decided;
    RunInvariants.DecidedTables(stored, a, passed, now);
  }

  lemma RetriedStays(db: Db, stored: Db, t: TaskId, a: ActionId, now: Time)
    requires stored == db.(tasks := stored.tasks) && t in stored.tasks && stored.tasks[t].verification == Some(a)
    requires a in db.verifications && !ActionVerifications.Terminal(db.verifications[a])
    requires stored.tasks[t].attempt < stored.tasks[t].maxAttempts && ActionIs(db, a, Verifying, Applied)
    ensures var db' := ActionVerifications.FinalizeTask(stored, t, false, now);
            && ActionsStay(db, db') && ActionIs(db', a, Verifying, Applied)
            && a in db'.verifications && db'.verifications[a].status.Queued?
  {
  }

  /** The runner's result is the task's. */
  lemma TaskCompletionSettles(db: Db, t: TaskId, runner: RunnerId, id: CompletionId, token: Token, succeeded: bool,
                              now: Time)
    requires Inv(db)
    ensures var o := Complete(db, t, runner, id, token, succeeded, now);
            o.Accepted? ==> TaskSettled(db, o.db, t, succeeded)
  {
    hide Inv, ActionVerifications.FinalizeTask, ResolveTask, TaskSettled;
    if Complete(db, t, runner, id, token, succeeded, now).Accepted? {
      var done := db.tasks[t].(status := if succeeded then TaskSucceeded else TaskFailed,
                               completion := Some(id), lease := None);
      FinalizingSettles(db, t, done, succeeded, now);
      ResolvedElsewhere(db, ActionVerifications.FinalizeTask(SetTask(db, t, done), t, succeeded, now), t, succeeded);
    }
  }

  lemma ResolvedElsewhere(db: Db, mid: Db, t: TaskId, succeeded: bool)
    requires TaskSettled(db, mid, t, succeeded)
    ensures TaskSettled(db, ResolveTask(mid, t), t, succeeded) && ResolveTask(mid, t).tasks == mid.tasks
  {
    hide ResolveTask;
    TaskPreservation.ResolveIsOutside(mid, t);
  }

  /** The lease ran out, or the runner that holds it was lost. */
  predicate LosesLease(task: Task, how: Ending) {
    && task.status.TaskLeased?
    && match how
       case Lapse(now) => task.lease.Some? && task.lease.value <= now
       case Loss(runner, _) => task.runner == Some(runner)
       case Withdrawal => false
  }

  /** A lost lease gives the task back while attempts are left; otherwise the task fails, and so does its verification.
      A withdrawn plan task is cancelled. Any other task is left alone. */
  predicate TaskEnded(db: Db, db': Db, how: Ending, t: TaskId) {
    && t in db.tasks && t in db'.tasks
    && var task, task' := db.tasks[t], db'.tasks[t];
       if LosesLease(task, how) then
         && task'.attempt == task.attempt && task'.lease.None? && task'.token.None?
         && if task.attempt < task.maxAttempts then
              && task'.status.TaskQueued? && (how.Loss? ==> task'.runner.None?)
              && ActionsStay(db, db') && db'.verifications == db.verifications
            else
              && task'.status.TaskFailed?
              && (task.verification.Some? ==> VerificationDecided(db, db', task.verification.value, false))
       else if how.Withdrawal? && Live(task) && task.planStep.Some? then
         task'.status.TaskCancelled? && ActionsStay(db, db') && db'.verifications == db.verifications
       else db' == db
  }

  lemma EndingSettles(db: Db, how: Ending, t: TaskId)
    requires Inv(db) && t in db.tasks
    ensures TaskEnded(db, EndTask(db, how, t), how, t)
  {
    hide Inv, ActionVerifications.FinalizeTask, ResolveTask, VerificationDecided;
    var task := db.tasks[t];
    if LosesLease(task, how) && task.attempt >= task.maxAttempts {
      ExhaustedFails(db, how, t);
    } else if how.Withdrawal? {
      TaskPreservation.ResolveIsOutside(
        SetTask(db, t, task.(status := TaskCancelled, token := None, lease := None)), t);
    }
  }

  /** The last attempt lost its lease. */
  lemma ExhaustedFails(db: Db, how: Ending, t: TaskId)
    requires Inv(db) && t in db.tasks && LosesLease(db.tasks[t], how) && db.tasks[t].attempt >= db.tasks[t].maxAttempts
    ensures TaskEnded(db, EndTask(db, how, t), how, t)
  {
    hide Inv, ActionVerifications.FinalizeTask, ResolveTask, VerificationDecided;
    var task := db.tasks[t];
    FinalizingSettles(db, t, GivenBack(task), false, how.now);
    FailedTask(db, t, how.now);
    if task.verification.Some? {
      TaskPreservation.LiveTaskCase(db, t);
      TaskPreservation.NoWait(db, t, GivenBack(task));
    }
  }

  /** The row of a task that failed for good is as it was given back. */
  lemma FailedTask(db: Db, t: TaskId, now: Time)
    requires t in db.tasks && db.tasks[t].attempt >= db.tasks[t].maxAttempts
    ensures var given := SetTask(db, t, GivenBack(db.tasks[t]));
            && t in ActionVerifications.FinalizeTask(given, t, false, now).tasks
            && ActionVerifications.FinalizeTask(given, t, false, now).tasks[t] == GivenBack(db.tasks[t])
            && t in ActionVerifications.FinalizeTask(ResolveTask(given, t), t, false, now).tasks
            && ActionVerifications.FinalizeTask(ResolveTask(given, t), t, false, now).tasks[t]
               == GivenBack(db.tasks[t])
  {
    hide ActionVerifications.FinalizeTask, ResolveTask;
    var given := SetTask(db, t, GivenBack(db.tasks[t]));
    TaskPreservation.ResolveIsOutside(given, t);
    RunInvariants.FinalizeTables(given, t, false, now);
    RunInvariants.FinalizeTables(ResolveTask(given, t), t, false, now);
  }

  /** A lease starts the next attempt, under the runner's token, and ends exactly one period later. */
  predicate LeasedUntil(cfg: Settings, db: Db, db': Db, t: TaskId, runner: RunnerId, token: Token, now: Time) {
    && t in db.tasks && t in db'.tasks && db'.tasks[t].status.TaskLeased?
    && db'.tasks[t].attempt == db.tasks[t].attempt + 1
    && db'.tasks[t].runner == Some(runner) && db'.tasks[t].token == Some(token)
    && db'.tasks[t].lease == Some(now + cfg.taskLease)
  }

  lemma LeaseStarts(cfg: Settings, db: Db, t: TaskId, runner: RunnerId, token: Token, now: Time)
    requires t in db.tasks
    ensures var db' := ActionVerifications.MarkRunning(SetTask(db, t, Leased(cfg, db.tasks[t], runner, token, now)), t);
            LeasedUntil(cfg, db, db', t, runner, token, now)
  {
  }

  // ----- Status changes of runs ------------------------------------------------------------------------------------

  /** The status changes a run allows. */
  const RUN_TRANSITIONS: set<(RunStatus, RunStatus)> := {
    (RunQueued, RunRunning), (RunQueued, RunCancelled),
    (RunRunning, RunPaused), (RunRunning, RunCompleted), (RunRunning, RunFailed), (RunRunning, RunCancelled),
    (RunPaused, RunRunning), (RunPaused, RunFailed), (RunPaused, RunCancelled)}

  /** The run is moved one version on; it keeps its owner and lease only while it runs, and everything else for good. */
  predicate RunMoved(db: Db, db': Db, r: RunId, target: RunStatus) {
    && r in db.runs && r in db'.runs && (db.runs[r].status, target) in RUN_TRANSITIONS
    && db'.runs[r].status == target && db'.runs[r].version == db.runs[r].version + 1
    && (if target.RunRunning? || target.RunQueued? then
          db'.runs[r].owner == db.runs[r].owner && db'.runs[r].lease == db.runs[r].lease
        else db'.runs[r].owner.None? && db'.runs[r].lease.None?)
    && db'.runs[r].log == db.runs[r].log && db'.runs[r].requests == db.runs[r].requests
    && db'.runs[r].iteration == db.runs[r].iteration
    && (if target.RunCancelled? then
          forall w :: w in db'.waits && w.run == r ==> !db'.waits[w].status.Waiting?
        else db'.waits == db.waits && db'.tasks == db.tasks)
  }

  lemma TransitionSettles(db: Db, r: RunId, version: nat, target: RunStatus)
    ensures var o := Investigations.Transition(db, r, version, target);
            && (o.Accepted? <==> r in db.runs && db.runs[r].version == version
                                 && (db.runs[r].status, target) in RUN_TRANSITIONS)
            && (o.Accepted? ==> RunMoved(db, o.db, r, target))
  {
  }
}
