/** Every step on actions, locks and executions keeps the invariant of the action tables and, when the lock
    leases cover the execution leases, the exclusion invariant. */
module ActionPreservation {
  import opened Common
  import opened Records
  import opened ActionInvariants
  import opened ResourceLocks
  import opened CaseSteps
  import ActionDispatcher
  import ActionVerifications

  /** The lock lease is at least the execution lease. */
  predicate LeasesCover(cfg: Settings) {
    cfg.executionLease <= cfg.lockLease
  }

  // ----- Life of an action ---------------------------------------------------------------------

  lemma CreateKeepsInv(db: Db, a: ActionId, action: Action)
    requires Inv(db)
    ensures Inv(After(db, ActionDispatcher.Create(db, a, action)))
    ensures Exclusive(db) ==> Exclusive(After(db, ActionDispatcher.Create(db, a, action)))
  {
    hide CaseOk, LockOk, TaskOk;
    if a !in db.actions {
      var db' := After(db, ActionDispatcher.Create(db, a, action));
      forall b | b in db'.actions
        ensures CaseOk(b, CaseOf(db', b)) && (Exclusive(db) ==> ExclusiveCase(b, CaseOf(db', b)))
      {
        if b != a {
          assert CaseOf(db', b) == CaseOf(db, b);
        } else {
          NewCase(db, a, db'.actions[a]);
        }
      }
      forall r | r in db'.locks ensures LockOk(db', r) { OldLock(db, a, db'.actions[a], r); }
    }
  }

  lemma OldLock(db: Db, a: ActionId, action: Action, r: ResourceId)
    requires Inv(db) && a !in db.actions && r in db.locks
    ensures LockOk(db.(actions := db.actions[a := action]), r)
  {
    assert LockOk(db, r);
  }

  lemma NewCase(db: Db, a: ActionId, action: Action)
    requires Inv(db) && a !in db.actions && action.status.Ready?
    ensures CaseOk(a, CaseOf(db.(actions := db.actions[a := action]), a))
    ensures ExclusiveCase(a, CaseOf(db.(actions := db.actions[a := action]), a))
  {
    assert action.resource in db.locks ==> LockOk(db, action.resource);
  }

  /** The effect of a step on one action: it writes a permitted, right case. */
  ghost predicate Writes(db: Db, db': Db, a: ActionId, c': Case)
    requires a in db.actions
  {
    db' == WriteCase(db, a, c') && CaseMoves(db, a, CaseOf(db, a), c') && CaseOk(a, c')
  }

  /** A verification task is only created, for its first attempt. */
  predicate TaskIsNew(c: Case, c': Case) {
    if c.verification.Some? then c'.task == c.task
    else c'.task.Some? ==> c'.task.value.attempt == 0 && c'.task.value.status.TaskQueued?
  }

  /** Such a step that leaves the verification task and an open outcome alone. */
  ghost predicate GoodWrite(db: Db, db': Db, a: ActionId, c': Case)
    requires a in db.actions
  {
    && Writes(db, db', a, c') && LeavesOutcome(CaseOf(db, a), c')
    && TaskIsNew(CaseOf(db, a), c')
  }

  /** A lock is not taken from a running action. */
  ghost predicate SparesRunning(db: Db, a: ActionId, c': Case)
    requires a in db.actions
  {
    var lock := CaseOf(db, a).lock;
    c'.lock != lock && lock.Some? && lock.value.owner != a && lock.value.owner in db.actions
    ==> !db.actions[lock.value.owner].status.Running?
  }

  lemma GoodWriteKeeps(db: Db, db': Db, a: ActionId, c': Case)
    requires Inv(db) && a in db.actions && Writes(db, db', a, c')
    ensures Inv(db')
    ensures Exclusive(db) && ExclusiveCase(a, c') && SparesRunning(db, a, c') ==> Exclusive(db')
  {
    hide Inv, Exclusive, CaseOk, CaseMoves, WriteCase, ExclusiveCase, CaseOf;
    WriteCaseKeepsInv(db, a, c');
    if Exclusive(db) && ExclusiveCase(a, c') && SparesRunning(db, a, c') {
      WriteCaseKeepsExclusive(db, a, c');
    }
  }

  /** Changing only the action's own rows and its own lock, tasks aside, is a permitted move. */
  lemma OwnLockMoves(db: Db, a: ActionId, c': Case)
    requires Inv(db) && a in db.actions
    requires var c := CaseOf(db, a);
             && CaseGrows(c, c') && c'.grants == c.grants
             && c'.task == c.task && c'.verification == c.verification
             && (c'.lock != c.lock ==> c.lock.Some? && c.lock.value.owner == a && c'.lock.Some?
                                       && c'.lock.value.owner == a && c'.lock.value.token == c.lock.value.token
                                       && (c.lock.value.released ==> c'.lock.value.released))
    ensures CaseMoves(db, a, CaseOf(db, a), c')
  {
    hide Inv, CaseOk, TaskOk, CaseGrows;
    CaseFacts(db, a);
    VerificationTask(db, a);
  }

  /** A step that changes only the action's own rows and its own lock writes its case. */
  lemma OwnLockWrites(db: Db, db': Db, a: ActionId, c': Case)
    requires Inv(db) && a in db.actions && db' == WriteCase(db, a, c')
    requires var c := CaseOf(db, a);
             && CaseOk(a, c') && Steps(c, c') && c'.grants == c.grants
             && c'.task == c.task && c'.verification == c.verification
             && (c'.lock != c.lock ==> c.lock.Some? && c.lock.value.owner == a && c'.lock.Some?
                                       && c'.lock.value.owner == a && c'.lock.value.token == c.lock.value.token
                                       && (c.lock.value.released ==> c'.lock.value.released))
    ensures GoodWrite(db, db', a, c') && SparesRunning(db, a, c')
  {
    hide Inv, CaseOk, CaseMoves, CaseGrows, LeavesOutcome, WriteCase;
    OwnLockMoves(db, a, c');
  }

  /** `get_for_action` finds exactly the lock the case owns. */
  lemma LockOfCase(db: Db, a: ActionId)
    requires a in db.actions
    ensures var c := CaseOf(db, a); LockOf(db, a) == if Owns(a, c) then c.lock else None
    ensures Owns(a, CaseOf(db, a)) ==> db.actions[a].resource in db.locks
  {
  }

  function CancelledCase(a: ActionId, c: Case, now: Time): Case {
    var d := SetStatus(c, Cancelled);
    if Owns(a, c) then d.(lock := Some(Freed(c.lock.value, now))) else d
  }

  lemma CancelTables(db: Db, a: ActionId, version: nat, now: Time)
    requires ActionDispatcher.Cancel(db, a, version, now).Accepted? && db.grants.Keys == db.locks.Keys
    ensures a in db.actions && db.actions[a].status.Ready?
    ensures ActionDispatcher.Cancel(db, a, version, now).db == WriteCase(db, a, CancelledCase(a, CaseOf(db, a), now))
  {
    hide Put, LockOf, Owns;
    var c' := CancelledCase(a, CaseOf(db, a), now);
    LockOfCase(db, a);
    CaseIsStored(db, a);
    PutWrites(db.actions, a, c'.action);
    if c'.lock.Some? { PutWrites(db.locks, c'.action.resource, c'.lock.value); }
  }

  lemma CancelWrites(db: Db, a: ActionId, version: nat, now: Time) returns (c': Case)
    requires Inv(db) && ActionDispatcher.Cancel(db, a, version, now).Accepted?
    ensures a in db.actions && GoodWrite(db, ActionDispatcher.Cancel(db, a, version, now).db, a, c')
    ensures ExclusiveCase(a, c') && SparesRunning(db, a, c')
  {
    hide Inv, CaseMoves, CaseGrows, LeavesOutcome, GoodWrite, SparesRunning, LockOk, CaseOk, ExclusiveCase,
      WriteCase, ActionDispatcher.Cancel;
    TableFacts(db);
    CancelTables(db, a, version, now);
    var c := CaseOf(db, a);
    c' := CancelledCase(a, c, now);
    CaseFacts(db, a);
    CaseSteps.Cancelled(a, c, now);
    OwnLockWrites(db, ActionDispatcher.Cancel(db, a, version, now).db, a, c');
  }

  // ----- Locks ------------------------------------------------------------------------------------

  lemma GrantTables(db: Db, a: ActionId, expires: Time)
    requires a in db.actions && db.grants.Keys == db.locks.Keys
    ensures var c' := Acquired(a, CaseOf(db, a), expires);
            Grant(db, a, c'.lock.value) == WriteCase(db, a, c')
  {
    hide Put;
    var c := CaseOf(db, a);
    var c' := Acquired(a, c, expires);
    CaseIsStored(db, a);
    PutWrites(db.locks, c.action.resource, c'.lock.value);
    PutWrites(db.grants, c.action.resource, c'.grants);
  }

  lemma AcquireTables(cfg: Settings, db: Db, a: ActionId, authorised: bool, now: Time)
    requires Acquire(cfg, db, a, authorised, now).Accepted? && db.grants.Keys == db.locks.Keys
    ensures a in db.actions && db.actions[a].status.Ready?
    ensures var c := CaseOf(db, a);
            && Acquire(cfg, db, a, authorised, now).db == WriteCase(db, a, Acquired(a, c, now + cfg.lockLease))
            && (c.lock.None? ==> c.grants == [])
            && (c.lock.Some? ==> !c.lock.value.frozen)
  {
    hide WriteCase, Grant;
    GrantTables(db, a, now + cfg.lockLease);
  }

  lemma AcquireWrites(cfg: Settings, db: Db, a: ActionId, authorised: bool, now: Time) returns (c': Case)
    requires Inv(db) && Acquire(cfg, db, a, authorised, now).Accepted?
    ensures a in db.actions && GoodWrite(db, Acquire(cfg, db, a, authorised, now).db, a, c')
    ensures ExclusiveCase(a, c') && c'.lock != CaseOf(db, a).lock
  {
    hide Inv, TaskOk, CaseOk, ExclusiveCase, WriteCase, Acquire;
    TableFacts(db);
    AcquireTables(cfg, db, a, authorised, now);
    var c := CaseOf(db, a);
    c' := Acquired(a, c, now + cfg.lockLease);
    CaseFacts(db, a);
    VerificationTask(db, a);
    AcquiredIsRight(a, c, now + cfg.lockLease);
  }

  lemma ManualRenewWrites(cfg: Settings, db: Db, a: ActionId, token: Token, now: Time) returns (c': Case)
    requires Inv(db) && ResourceLocks.Renew(cfg, db, a, token, now).Accepted?
    ensures a in db.actions && GoodWrite(db, ResourceLocks.Renew(cfg, db, a, token, now).db, a, c')
    ensures ExclusiveCase(a, c') && SparesRunning(db, a, c')
  {
    hide Inv, CaseMoves, CaseGrows, LeavesOutcome, GoodWrite, SparesRunning, LockOk, TaskOk, CaseOk, ExclusiveCase, Put;
    var c := CaseOf(db, a);
    c' := c.(lock := Some(c.lock.value.(expires := now + cfg.lockLease, released := false)));
    CaseFacts(db, a);
    CaseIsStored(db, a);
    LockKept(a, c, now + cfg.lockLease, false);
    PutWrites(db.locks, c.action.resource, c'.lock.value);
    OwnLockWrites(db, ResourceLocks.Renew(cfg, db, a, token, now).db, a, c');
  }

  lemma ManualReleaseWrites(db: Db, a: ActionId, token: Token, now: Time) returns (c': Case)
    requires Inv(db) && ResourceLocks.Release(db, a, token, now).Accepted?
    ensures a in db.actions && GoodWrite(db, ResourceLocks.Release(db, a, token, now).db, a, c')
    ensures ExclusiveCase(a, c') && SparesRunning(db, a, c')
  {
    hide Inv, CaseMoves, CaseGrows, LeavesOutcome, GoodWrite, SparesRunning, LockOk, TaskOk, CaseOk, ExclusiveCase, Put;
    var c := CaseOf(db, a);
    c' := c.(lock := Some(c.lock.value.(expires := now, released := true)));
    CaseFacts(db, a);
    CaseIsStored(db, a);
    LockKept(a, c, now, true);
    PutWrites(db.locks, c.action.resource, c'.lock.value);
    OwnLockWrites(db, ResourceLocks.Release(db, a, token, now).db, a, c');
  }

  // ----- Executions ---------------------------------------------------------------------------------

  lemma DispatchedWrites(db: Db, a: ActionId, runner: RunnerId) returns (c': Case)
    requires Inv(db) && a in db.actions && db.actions[a].status.Ready?
    requires db.actions[a].resource in db.locks && db.locks[db.actions[a].resource].owner == a
    ensures GoodWrite(db, ActionDispatcher.Dispatched(db, a, runner), a, c')
    ensures ExclusiveCase(a, c') && SparesRunning(db, a, c')
  {
    hide Inv, CaseMoves, CaseGrows, LeavesOutcome, GoodWrite, SparesRunning, TaskOk, CaseOk, ExclusiveCase, Put;
    var c := CaseOf(db, a);
    var e := Execution(runner, Dispatching, ActionDispatcher.EXECUTION_TOKEN, c.lock.value.token, None, None);
    c' := CaseSteps.Dispatched(c, e);
    CaseFacts(db, a);
    CaseIsStored(db, a);
    DispatchedIsRight(a, c, e);
    PutWrites(db.actions, a, c'.action);
    PutWrites(db.executions, a, c'.execution.value);
    OwnLockWrites(db, ActionDispatcher.Dispatched(db, a, runner), a, c');
  }

  /** `Claim` after its recovery of expired executions. */
  lemma ClaimWrites(cfg: Settings, db: Db, runner: RunnerId, a: ActionId, now: Time) returns (c': Case)
    requires Inv(db) && ActionDispatcher.ClaimRow(cfg, db, runner, a, now).Accepted?
    ensures a in db.actions && GoodWrite(db, ActionDispatcher.ClaimRow(cfg, db, runner, a, now).db, a, c')
    ensures SparesRunning(db, a, c') && (LeasesCover(cfg) ==> ExclusiveCase(a, c'))
  {
    hide Inv, CaseMoves, CaseGrows, LeavesOutcome, GoodWrite, SparesRunning, LockOk, TaskOk, CaseOk, ExclusiveCase, Put;
    var c := CaseOf(db, a);
    CaseFacts(db, a);
    CaseIsStored(db, a);
    c' := Claimed(c, now + cfg.executionLease, now + cfg.lockLease);
    ClaimedIsRight(a, c, now + cfg.executionLease, now + cfg.lockLease);
    PutWrites(db.actions, a, c'.action);
    PutWrites(db.executions, a, c'.execution.value);
    PutWrites(db.locks, c.action.resource, c'.lock.value);
    OwnLockWrites(db, ActionDispatcher.ClaimRow(cfg, db, runner, a, now).db, a, c');
  }

  lemma RenewWrites(cfg: Settings, db: Db, a: ActionId, runner: RunnerId, x: Token, token: Token, now: Time)
    returns (c': Case)
    requires Inv(db) && ActionDispatcher.Renew(cfg, db, a, runner, x, token, now).Accepted?
    ensures a in db.actions && GoodWrite(db, ActionDispatcher.Renew(cfg, db, a, runner, x, token, now).db, a, c')
    ensures SparesRunning(db, a, c') && (LeasesCover(cfg) ==> ExclusiveCase(a, c'))
  {
    hide Inv, CaseMoves, CaseGrows, LeavesOutcome, GoodWrite, SparesRunning, LockOk, TaskOk, CaseOk, ExclusiveCase, Put;
    var c := CaseOf(db, a);
    CaseFacts(db, a);
    CaseIsStored(db, a);
    c' := Renewed(c, now + cfg.executionLease, now + cfg.lockLease);
    RenewedIsRight(a, c, now + cfg.executionLease, now + cfg.lockLease);
    PutWrites(db.executions, a, c'.execution.value);
    PutWrites(db.locks, c.action.resource, c'.lock.value);
    OwnLockWrites(db, ActionDispatcher.Renew(cfg, db, a, runner, x, token, now).db, a, c');
  }

  lemma CompletedTables(db: Db, a: ActionId, runner: RunnerId, completion: CompletionId, succeeded: bool, task: TaskId,
                        now: Time)
    requires a in db.actions && a in db.executions && db.grants.Keys == db.locks.Keys && a !in db.verifications
    requires var c := CaseOf(db, a); c.lock.Some? && c.execution.value.runner == runner
    ensures var c := CaseOf(db, a);
            ActionDispatcher.Completed(db, a, c.lock.value, runner, completion, succeeded, task, now)
            == WriteCase(db, a, Completed(a, c, completion, succeeded, task, now))
  {
    hide Put;
    var c := CaseOf(db, a);
    var c' := Completed(a, c, completion, succeeded, task, now);
    CaseIsStored(db, a);
    PutWrites(db.actions, a, c'.action);
    PutWrites(db.executions, a, c'.execution.value);
    PutWrites(db.locks, c.action.resource, c'.lock.value);
    if succeeded {
      PutWrites(db.verifications, a, c'.verification.value);
      PutWrites(db.tasks, task, c'.task.value);
    }
  }

  lemma CompletedMoves(db: Db, a: ActionId, completion: CompletionId, succeeded: bool, task: TaskId, now: Time)
    requires Inv(db) && a in db.actions && Holds(a, CaseOf(db, a)) && CaseOf(db, a).execution.value.status.Running?
    requires succeeded ==> task !in db.tasks
    ensures var c := CaseOf(db, a);
            var c' := Completed(a, c, completion, succeeded, task, now);
            && a !in db.verifications && CaseOk(a, c') && ExclusiveCase(a, c') && LeavesOutcome(c, c')
            && CaseMoves(db, a, c, c') && TaskIsNew(c, c') && SparesRunning(db, a, c')
  {
    hide Inv, CaseOk, ExclusiveCase, CaseGrows, LeavesOutcome;
    var c := CaseOf(db, a);
    CaseFacts(db, a);
    CompletedIsRight(a, c, completion, succeeded, task, now);
  }

  lemma CompleteWrites(db: Db, a: ActionId, runner: RunnerId, completion: CompletionId, x: Token, token: Token,
                       succeeded: bool, task: TaskId, now: Time) returns (c': Case)
    requires Inv(db)
    requires ActionDispatcher.Complete(db, a, runner, completion, x, token, succeeded, task, now).Accepted?
    ensures a in db.actions
    ensures GoodWrite(db,
      ActionDispatcher.Complete(db, a, runner, completion, x, token, succeeded, task, now).db, a, c')
    ensures ExclusiveCase(a, c') && SparesRunning(db, a, c')
  {
    hide Inv, CaseOk, ExclusiveCase, CaseMoves, LeavesOutcome, TaskIsNew, SparesRunning, WriteCase,
      ActionDispatcher.Completed;
    TableFacts(db);
    c' := Completed(a, CaseOf(db, a), completion, succeeded, task, now);
    CompletedMoves(db, a, completion, succeeded, task, now);
    CompletedTables(db, a, runner, completion, succeeded, task, now);
  }

  /** The tables after a write that leaves verification and compensation alone. */
  lemma ActionRowsAreStored(db: Db, a: ActionId, c': Case)
    requires a in db.actions && db.grants.Keys == db.locks.Keys
    requires var c := CaseOf(db, a);
             c' == c.(action := c'.action, execution := c'.execution, lock := c'.lock) && c'.execution.Some?
             && c'.lock.Some? == c.lock.Some?
    ensures WriteCase(db, a, c') == db.(
              actions := db.actions[a := c'.action],
              executions := db.executions[a := c'.execution.value],
              locks := if c'.lock == CaseOf(db, a).lock then db.locks
                else db.locks[db.actions[a].resource := c'.lock.value])
  {
    hide Put;
    CaseIsStored(db, a);
    PutWrites(db.actions, a, c'.action);
    PutWrites(db.executions, a, c'.execution.value);
    if c'.lock.Some? { PutWrites(db.locks, db.actions[a].resource, c'.lock.value); }
  }

  lemma SettleFreed(db: Db, a: ActionId, succeeded: bool, now: Time)
    requires a in db.actions && a in db.executions && db.grants.Keys == db.locks.Keys && Owns(a, CaseOf(db, a))
    ensures var c := CaseOf(db, a);
            WriteCase(db, a, Reconciled(a, c, succeeded, now))
            == SetLock(ActionDispatcher.Settled(db, a, succeeded), a, Freed(c.lock.value, now).(frozen := false))
  {
    hide WriteCase;
    var c := CaseOf(db, a);
    ActionRowsAreStored(db, a, Reconciled(a, c, succeeded, now));
    assert Freed(c.lock.value, now) != c.lock.value;
  }

  lemma SettleOnly(db: Db, a: ActionId, succeeded: bool, now: Time)
    requires a in db.actions && a in db.executions && db.grants.Keys == db.locks.Keys && !Owns(a, CaseOf(db, a))
    ensures WriteCase(db, a, Reconciled(a, CaseOf(db, a), succeeded, now)) == ActionDispatcher.Settled(db, a, succeeded)
  {
    hide WriteCase, Owns;
    ActionRowsAreStored(db, a, Reconciled(a, CaseOf(db, a), succeeded, now));
  }

  lemma ReconcileTables(db: Db, a: ActionId, version: nat, succeeded: bool, now: Time)
    requires ActionDispatcher.Reconcile(db, a, version, succeeded, now).Accepted? && db.grants.Keys == db.locks.Keys
    ensures a in db.actions && db.actions[a].status.Unknown? && a in db.executions
    ensures ActionDispatcher.Reconcile(db, a, version, succeeded, now).db
            == WriteCase(db, a, Reconciled(a, CaseOf(db, a), succeeded, now))
  {
    hide WriteCase, LockOf, Owns, ActionDispatcher.Settled, Reconciled;
    LockOfCase(db, a);
    if Owns(a, CaseOf(db, a)) { SettleFreed(db, a, succeeded, now); } else { SettleOnly(db, a, succeeded, now); }
  }

  lemma ReconcileWrites(db: Db, a: ActionId, version: nat, succeeded: bool, now: Time) returns (c': Case)
    requires Inv(db) && ActionDispatcher.Reconcile(db, a, version, succeeded, now).Accepted?
    ensures a in db.actions && Writes(db, ActionDispatcher.Reconcile(db, a, version, succeeded, now).db, a, c')
    ensures ExclusiveCase(a, c') && SparesRunning(db, a, c') && TaskIsNew(CaseOf(db, a), c')
  {
    hide Inv, CaseMoves, CaseGrows, LeavesOutcome, LockOk, CaseOk, ExclusiveCase, WriteCase, ActionDispatcher.Reconcile;
    TableFacts(db);
    ReconcileTables(db, a, version, succeeded, now);
    var c := CaseOf(db, a);
    CaseFacts(db, a);
    c' := Reconciled(a, c, succeeded, now);
    ReconciledIsRight(a, c, succeeded, now);
    OwnLockMoves(db, a, c');
  }
}
