/** Every step on compensations writes a right case. */
module CompensationPreservation {
  import opened Common
  import opened Records
  import opened ActionInvariants
  import opened ActionPreservation
  import opened CaseSteps
  import opened ResourceLocks
  import ActionDispatcher
  import Compensations

  /** Case changes that leave execution, lock token, verification and task alone. */
  lemma CompRowsAreStored(db: Db, a: ActionId, c': Case)
    requires a in db.actions && db.grants.Keys == db.locks.Keys
    requires var c := CaseOf(db, a);
             c'.execution == c.execution && c'.grants == c.grants && c'.verification == c.verification
             && c'.task == c.task && c'.lock.Some? == c.lock.Some? && c'.action.resource == c.action.resource
    requires c'.compensation.Some?
    ensures WriteCase(db, a, c') == db.(
              actions := db.actions[a := c'.action],
              locks := if c'.lock.Some? then db.locks[c'.action.resource := c'.lock.value] else db.locks,
              compensations := db.compensations[a := c'.compensation.value],
              compExecutions := if c'.compExecution.Some? then db.compExecutions[a := c'.compExecution.value]
                                else db.compExecutions)
  {
    hide Put;
    CaseIsStored(db, a);
    PutWrites(db.actions, a, c'.action);
    PutWrites(db.compensations, a, c'.compensation.value);
    if c'.lock.Some? { PutWrites(db.locks, c'.action.resource, c'.lock.value); }
    if c'.compExecution.Some? { PutWrites(db.compExecutions, a, c'.compExecution.value); }
    PutNone(db.locks, c'.action.resource);
    PutNone(db.compExecutions, a);
  }

  lemma PutNone<K, V>(m: map<K, V>, k: K)
    ensures Put(m, k, None) == m
  {
  }

  lemma SameUpdate<K, V>(m: map<K, V>, k: K)
    requires k in m
    ensures m[k := m[k]] == m
  {
  }

  lemma CreateWrites(db: Db, a: ActionId, parameters: nat, key: nat, holder: Option<ActionId>, actor: nat,
                     expires: Time) returns (c': Case)
    requires Inv(db) && Compensations.Create(db, a, parameters, key, holder, actor, expires).Accepted?
    ensures a in db.actions
    ensures GoodWrite(db, Compensations.Create(db, a, parameters, key, holder, actor, expires).db, a, c')
    ensures ExclusiveCase(a, c') && SparesRunning(db, a, c')
  {
    hide Inv, CaseMoves, CaseGrows, LeavesOutcome, GoodWrite, SparesRunning, LockOk, TaskOk, CaseOk, WriteCase;
    var c := CaseOf(db, a);
    var comp := Compensation(CompPending, key, actor, expires, 1);
    c' := c.(compensation := Some(comp));
    CaseFacts(db, a);
    CompensationRequested(a, c, comp);
    CompRowsAreStored(db, a, c');
    SameUpdate(db.actions, a);
    if c.lock.Some? { SameUpdate(db.locks, c.action.resource); }
    if a in db.compExecutions { SameUpdate(db.compExecutions, a); }
    OwnLockWrites(db, Compensations.Create(db, a, parameters, key, holder, actor, expires).db, a, c');
  }

  lemma DecideWrites(db: Db, a: ActionId, approved: bool) returns (c': Case)
    requires Inv(db) && a in db.compensations && db.compensations[a].status.CompPending?
    ensures a in db.actions
    ensures GoodWrite(db, Compensations.SetCompensation(db, a, if approved then CompApproved else CompRejected), a, c')
    ensures ExclusiveCase(a, c') && SparesRunning(db, a, c')
  {
    hide Inv, CaseMoves, CaseGrows, LeavesOutcome, GoodWrite, SparesRunning, LockOk, TaskOk, CaseOk, WriteCase;
    TableFacts(db);
    var c := CaseOf(db, a);
    c' := SetComp(c, if approved then CompApproved else CompRejected);
    CaseFacts(db, a);
    CompensationDecided(a, c, approved);
    NotRunning(a, c);
    CompRowsAreStored(db, a, c');
    SameUpdate(db.actions, a);
    if c.lock.Some? { SameUpdate(db.locks, c.action.resource); }
    if a in db.compExecutions { SameUpdate(db.compExecutions, a); }
    OwnLockWrites(db, Compensations.SetCompensation(db, a, if approved then CompApproved else CompRejected), a, c');
  }

  lemma NotRunning(a: ActionId, c: Case)
    requires CaseOk(a, c) && c.compensation.Some?
    ensures !c.action.status.Running? && !c.action.status.Unknown?
  {
  }

  lemma DispatchWrites(db: Db, a: ActionId, version: nat, runner: Option<RunnerId>, now: Time) returns (c': Case)
    requires Inv(db) && Compensations.DispatchRow(db, a, version, runner, now).Accepted?
    ensures a in db.actions && GoodWrite(db, Compensations.DispatchRow(db, a, version, runner, now).db, a, c')
    ensures ExclusiveCase(a, c') && SparesRunning(db, a, c')
  {
    hide Inv, CaseMoves, CaseGrows, LeavesOutcome, GoodWrite, SparesRunning, LockOf, LockOk, TaskOk, CaseOk, WriteCase,
      ExclusiveCase;
    TableFacts(db);
    var c := CaseOf(db, a);
    LockOfCase(db, a);
    var e := Execution(runner.value, CompDispatching, ActionDispatcher.EXECUTION_TOKEN, c.lock.value.token, None, None);
    c' := CompDispatched(c, e);
    CaseFacts(db, a);
    CompDispatchedIsRight(a, c, e);
    CompRowsAreStored(db, a, c');
    SameUpdate(db.locks, c.action.resource);
    OwnLockWrites(db, Compensations.DispatchRow(db, a, version, runner, now).db, a, c');
  }

  lemma ClaimTables(cfg: Settings, db: Db, runner: RunnerId, a: ActionId, now: Time)
    requires Compensations.ClaimRow(cfg, db, runner, a, now).Accepted? && db.grants.Keys == db.locks.Keys
    ensures a in db.actions
    ensures var c := CaseOf(db, a);
            && Owns(a, c) && c.compExecution.Some? && c.compExecution.value.status.CompDispatching?
              && c.compensation.Some?
            && Compensations.ClaimRow(cfg, db, runner, a, now).db
               == WriteCase(db, a, CompClaimed(c, now + cfg.executionLease, now + cfg.lockLease))
  {
    hide LockOf, WriteCase;
    LockHolderExists(db, a);
    var c := CaseOf(db, a);
    LockOfCase(db, a);
    CompRowsAreStored(db, a, CompClaimed(c, now + cfg.executionLease, now + cfg.lockLease));
    SameUpdate(db.actions, a);
  }

  lemma LockHolderExists(db: Db, a: ActionId)
    ensures LockOf(db, a).Some? ==> a in db.actions
  {
  }

  lemma ClaimWrites(cfg: Settings, db: Db, runner: RunnerId, a: ActionId, now: Time) returns (c': Case)
    requires Inv(db) && Compensations.ClaimRow(cfg, db, runner, a, now).Accepted?
    ensures a in db.actions && GoodWrite(db, Compensations.ClaimRow(cfg, db, runner, a, now).db, a, c')
    ensures ExclusiveCase(a, c') && SparesRunning(db, a, c')
  {
    hide Inv, CaseGrows, LeavesOutcome, GoodWrite, SparesRunning, LockOk, TaskOk, CaseOk, WriteCase, ExclusiveCase,
      CaseOf, Compensations.ClaimRow;
    TableFacts(db);
    ClaimTables(cfg, db, runner, a, now);
    var c := CaseOf(db, a);
    CaseFacts(db, a);
    CompClaimedIsRight(a, c, now + cfg.executionLease, now + cfg.lockLease);
    c' := CompClaimed(c, now + cfg.executionLease, now + cfg.lockLease);
    OwnLockWrites(db, Compensations.ClaimRow(cfg, db, runner, a, now).db, a, c');
  }

  lemma RenewWrites(cfg: Settings, db: Db, a: ActionId, runner: RunnerId, x: Token, token: Token, now: Time)
    returns (c': Case)
    requires Inv(db) && Compensations.Renew(cfg, db, a, runner, x, token, now).Accepted?
    ensures a in db.actions && GoodWrite(db, Compensations.Renew(cfg, db, a, runner, x, token, now).db, a, c')
    ensures ExclusiveCase(a, c') && SparesRunning(db, a, c')
  {
    hide Inv, CaseMoves, CaseGrows, LeavesOutcome, GoodWrite, SparesRunning, LockOk, TaskOk, CaseOk, WriteCase,
      ExclusiveCase;
    TableFacts(db);
    var c := CaseOf(db, a);
    LockOfCase(db, a);
    CaseFacts(db, a);
    c' := CompRenewed(c, now + cfg.executionLease, now + cfg.lockLease);
    CompRenewedIsRight(a, c, now + cfg.executionLease, now + cfg.lockLease);
    CompRowsAreStored(db, a, c');
    SameUpdate(db.actions, a);
    SameUpdate(db.compensations, a);
    OwnLockWrites(db, Compensations.Renew(cfg, db, a, runner, x, token, now).db, a, c');
  }

  lemma CompleteWrites(db: Db, a: ActionId, runner: RunnerId, completion: CompletionId, x: Token, token: Token,
                       succeeded: bool, now: Time) returns (c': Case)
    requires Inv(db) && Compensations.Complete(db, a, runner, completion, x, token, succeeded, now).Accepted?
    ensures a in db.actions
    ensures GoodWrite(db, Compensations.Complete(db, a, runner, completion, x, token, succeeded, now).db, a, c')
    ensures ExclusiveCase(a, c') && SparesRunning(db, a, c')
  {
    hide Inv, CaseMoves, CaseGrows, LeavesOutcome, GoodWrite, SparesRunning, LockOk, TaskOk, CaseOk, WriteCase,
      ExclusiveCase;
    TableFacts(db);
    var c := CaseOf(db, a);
    LockOfCase(db, a);
    CaseFacts(db, a);
    CompCompletedIsRight(a, c, completion, succeeded, now);
    c' := CompCompleted(c, completion, succeeded, now);
    CompRowsAreStored(db, a, c');
    OwnLockWrites(db, Compensations.Complete(db, a, runner, completion, x, token, succeeded, now).db, a, c');
  }

  lemma EscalateTables(db: Db, a: ActionId, version: nat)
    requires Compensations.Escalate(db, a, version).Accepted? && db.grants.Keys == db.locks.Keys && a in db.actions
    ensures var c := CaseOf(db, a);
            && c.compensation.Some?
            && (var s := c.compensation.value.status;
                s.CompApproved? || s.CompRejected? || s.CompFailed? || s.CompUnknown?)
            && Compensations.Escalate(db, a, version).db == WriteCase(db, a,
              SetStatus(SetComp(c, CompEscalated), Escalated))
  {
    hide WriteCase;
    var c := CaseOf(db, a);
    CompRowsAreStored(db, a, SetStatus(SetComp(c, CompEscalated), Escalated));
    if c.lock.Some? { SameUpdate(db.locks, c.action.resource); }
    if a in db.compExecutions { SameUpdate(db.compExecutions, a); }
  }

  lemma EscalateWrites(db: Db, a: ActionId, version: nat) returns (c': Case)
    requires Inv(db) && Compensations.Escalate(db, a, version).Accepted?
    ensures a in db.actions && GoodWrite(db, Compensations.Escalate(db, a, version).db, a, c')
    ensures ExclusiveCase(a, c') && SparesRunning(db, a, c')
  {
    hide Inv, CaseGrows, LeavesOutcome, GoodWrite, SparesRunning, LockOk, TaskOk, CaseOk, WriteCase, ExclusiveCase;
    TableFacts(db);
    var c := CaseOf(db, a);
    EscalateTables(db, a, version);
    CaseFacts(db, a);
    CompEscalatedIsRight(a, c);
    c' := SetStatus(SetComp(c, CompEscalated), Escalated);
    OwnLockWrites(db, Compensations.Escalate(db, a, version).db, a, c');
  }
}
