/** The services on actions as they run: in-place updates of rows, loops over query results, and a rollback
    on every error (backend/app/services/resource_locks.py, action_verifications.py, action_dispatcher.py). */
module ActionServices {
  import opened Common
  import opened Records
  import opened Tables
  import opened ActionInvariants
  import opened Agreement
  import ActionDispatcher
  import ActionSteps
  import ActionVerifications
  import ResourceLocks
  import RunnerTasks
  import StepRelations

  /** Every lock is on the resource of the action that owns it. */
  ghost predicate LocksAreOwned(db: Db) {
    forall r :: r in db.locks ==> db.locks[r].owner in db.actions && db.actions[db.locks[r].owner].resource == r
  }

  lemma LocksOfInv(db: Db)
    requires Inv(db)
    ensures LocksAreOwned(db) && db.executions.Keys <= db.actions.Keys && db.verifications.Keys <= db.actions.Keys
    ensures db.grants.Keys == db.locks.Keys
  {
    hide CaseOk, TaskOk, TaskLinked;
    forall r | r in db.locks
      ensures db.locks[r].owner in db.actions && db.actions[db.locks[r].owner].resource == r
    {
      assert LockOk(db, r);
    }
  }

  /** The action holds its resource's lock: until then no other action can acquire it. */
  ghost predicate HeldUntil(cfg: Settings, db: Db, a: ActionId, until: Time) {
    && a in db.actions && ResourceLocks.LockOf(db, a).Some? && ResourceLocks.LockOf(db, a).value.expires == until
    && forall b, authorised, later ::
         b in db.actions && b != a && db.actions[b].resource == db.actions[a].resource && later < until
         ==> ResourceLocks.Acquire(cfg, db, b, authorised, later).Refused?
  }

  /** The lock was free, and its token is the next one of the resource. */
  predicate NextToken(db: Db, db': Db, a: ActionId, now: Time) {
    && a in db.actions && db.actions[a].resource in db'.locks
    && var r := db.actions[a].resource;
       if r !in db.locks then db'.locks[r].token == 1
       else
         && db'.locks[r].token == db.locks[r].token + 1
         && !db.locks[r].frozen && (db.locks[r].released || db.locks[r].expires <= now)
  }

  lemma HeldRefuses(cfg: Settings, db: Db, b: ActionId, authorised: bool, later: Time)
    requires b in db.actions && db.actions[b].resource in db.locks
    requires var lock := db.locks[db.actions[b].resource]; lock.owner != b && !lock.released && later < lock.expires
    ensures ResourceLocks.Acquire(cfg, db, b, authorised, later).Refused?
  {
    hide ResourceLocks.Grant;
  }

  lemma GrantedLock(cfg: Settings, db: Db, a: ActionId, authorised: bool, now: Time)
    requires ResourceLocks.Acquire(cfg, db, a, authorised, now).Accepted?
    ensures var db' := ResourceLocks.Acquire(cfg, db, a, authorised, now).db;
            && a in db.actions && db'.actions == db.actions && db.actions[a].resource in db'.locks
            && var lock := db'.locks[db.actions[a].resource];
               lock.owner == a && !lock.released && lock.expires == now + cfg.lockLease
  {
    hide ResourceLocks.Grant;
    var r := db.actions[a].resource;
    ActionSteps.GrantOwns(db, a, Lock(a, 1, now + cfg.lockLease, false, false));
    if r in db.locks {
      ActionSteps.GrantOwns(db, a, db.locks[r].(owner := a, token := db.locks[r].token + 1,
                                                expires := now + cfg.lockLease, released := false));
    }
  }

  lemma AcquiredHolds(cfg: Settings, db: Db, a: ActionId, authorised: bool, now: Time)
    ensures var o := ResourceLocks.Acquire(cfg, db, a, authorised, now);
            o.Accepted? ==> HeldUntil(cfg, o.db, a, now + cfg.lockLease)
  {
    hide ResourceLocks.Acquire;
    var o := ResourceLocks.Acquire(cfg, db, a, authorised, now);
    if o.Accepted? {
      GrantedLock(cfg, db, a, authorised, now);
      forall b, ok, later | b in o.db.actions && b != a && o.db.actions[b].resource == db.actions[a].resource
                            && later < now + cfg.lockLease
        ensures ResourceLocks.Acquire(cfg, o.db, b, ok, later).Refused?
      {
        HeldRefuses(cfg, o.db, b, ok, later);
      }
    }
  }

  class ResourceLockService {
    const db: Database
    const cfg: Settings

    constructor (db: Database, cfg: Settings)
      ensures this.db == db && this.cfg == cfg
    {
      this.db, this.cfg := db, cfg;
    }

    /** `get_for_action`: the resource of the unreleased lock an action owns. */
    method GetForAction(a: ActionId) returns (found: Option<ResourceId>)
      requires LocksAreOwned(db.State())
      ensures found.Some? <==> ResourceLocks.LockOf(db.State(), a).Some?
      ensures found.Some? ==>
                && a in db.actions && found.value == db.actions[a].resource && found.value in db.locks
                && ResourceLocks.LockOf(db.State(), a) == Some(db.locks[found.value])
    {
      var owned := set r | r in db.locks && db.locks[r].owner == a && !db.locks[r].released;
      if owned == {} {
        assert a in db.actions && db.actions[a].resource in db.locks ==> db.actions[a].resource !in owned;
        return None;
      }
      var r :| r in owned;
      return Some(r);
    }

    method Acquire(a: ActionId, authorised: bool, now: Time) returns (reply: Reply)
      modifies db
      ensures var o := ResourceLocks.Acquire(cfg, old(db.State()), a, authorised, now);
              reply == Answer(o) && db.State() == After(old(db.State()), o)
      ensures reply.Done? ==>
                && HeldUntil(cfg, db.State(), a, now + cfg.lockLease)
                && NextToken(old(db.State()), db.State(), a, now)
      ensures reply.Repeated? ==> db.State() == old(db.State())
      ensures KeepsAgreement(old(db.State()), db.State())
    {
      hide KeepsAgreement, HeldUntil;
      AcquireAgrees(cfg, db.State(), a, authorised, now);
      AcquiredHolds(cfg, db.State(), a, authorised, now);
      if a !in db.actions { return Error(ActionNotFound); }
      if !db.actions[a].status.Ready? { return Error(ActionNotLockable); }
      if !authorised { return Error(PolicyRevalidationFailed); }
      var r := db.actions[a].resource;
      var expires := now + cfg.lockLease;
      if r !in db.locks {
        db.locks := db.locks[r := Lock(a, 1, expires, false, false)];
      } else {
        var lock := db.locks[r];
        if lock.owner == a && !lock.released && lock.expires > now { return Repeated; }
        if lock.frozen { return Error(LockReconciliationRequired); }
        if !lock.released && lock.expires > now { return Error(LockConflict); }
        db.locks := db.locks[r := lock.(owner := a, token := lock.token + 1, expires := expires, released := false)];
      }
      db.grants := db.grants[r := (if r in db.grants then db.grants[r] else []) + [a]];
      return Done;
    }

    /** `_owned_active`. */
    method OwnedActive(a: ActionId, token: Token, now: Time) returns (error: Option<Code>, r: ResourceId)
      requires LocksAreOwned(db.State())
      ensures error == ResourceLocks.ManualChangeError(db.State(), a, token, now)
      ensures error.None? ==> a in db.actions && r == db.actions[a].resource && r in db.locks
                              && ResourceLocks.LockOf(db.State(), a) == Some(db.locks[r])
    {
      r := 0;
      if a !in db.actions { return Some(ActionNotFound), r; }
      if !db.actions[a].status.Ready? { return Some(LockManualChangeForbidden), r; }
      var found := GetForAction(a);
      if found.None? { return Some(LockNotFound), r; }
      r := found.value;
      if db.locks[r].token != token { return Some(LockFenced), r; }
      if db.locks[r].expires <= now { return Some(LockExpired), r; }
      return None, r;
    }

    method Renew(a: ActionId, token: Token, now: Time) returns (reply: Reply)
      requires LocksAreOwned(db.State())
      modifies db
      ensures var o := ResourceLocks.Renew(cfg, old(db.State()), a, token, now);
              reply == Answer(o) && db.State() == After(old(db.State()), o)
    {
      var error, r := OwnedActive(a, token, now);
      if error.Some? { return Error(error.value); }
      db.locks := db.locks[r := db.locks[r].(expires := now + cfg.lockLease)];
      return Done;
    }

    method Release(a: ActionId, token: Token, now: Time) returns (reply: Reply)
      requires LocksAreOwned(db.State())
      modifies db
      ensures var o := ResourceLocks.Release(old(db.State()), a, token, now);
              reply == Answer(o) && db.State() == After(old(db.State()), o)
    {
      var error, r := OwnedActive(a, token, now);
      if error.Some? { return Error(error.value); }
      db.locks := db.locks[r := db.locks[r].(expires := now, released := true)];
      return Done;
    }
  }

  class ActionVerificationService {
    const db: Database
    const cfg: Settings

    constructor (db: Database, cfg: Settings)
      ensures this.db == db && this.cfg == cfg
    {
      this.db, this.cfg := db, cfg;
    }

    method Create(a: ActionId, runner: RunnerId, task: TaskId)
      modifies db
      ensures db.State() == ActionVerifications.Create(old(db.State()), a, runner, task)
    {
      if a in db.verifications { return; }
      db.verifications := db.verifications[a := Verification(Queued, false, task)];
      db.tasks := db.tasks[task := Task(None, Some(a), None, Some(runner), TaskQueued, 0,
                                        ActionVerifications.VERIFICATION_ATTEMPTS, None, None, None)];
    }

    method MarkRunning(t: TaskId)
      requires t in db.tasks
      modifies db
      ensures db.State() == ActionVerifications.MarkRunning(old(db.State()), t)
    {
      if db.tasks[t].verification.None? { return; }
      var a := db.tasks[t].verification.value;
      if a !in db.verifications || !db.verifications[a].status.Queued? { return; }
      db.verifications := db.verifications[a := db.verifications[a].(status := Checking)];
    }

    /** `finalize_task`: try a failed verification again, or decide it, its action and the lock. */
    method FinalizeTask(t: TaskId, succeeded: bool, now: Time)
      requires t in db.tasks && LocksAreOwned(db.State())
      requires db.verifications.Keys <= db.executions.Keys <= db.actions.Keys
      modifies db
      ensures db.State() == ActionVerifications.FinalizeTask(old(db.State()), t, succeeded, now)
    {
      hide LocksAreOwned, ActionVerifications.Decided;
      var task := db.tasks[t];
      if task.verification.None? { return; }
      var a := task.verification.value;
      if a !in db.verifications || ActionVerifications.Terminal(db.verifications[a]) { return; }
      if !succeeded && task.attempt < task.maxAttempts {
        db.tasks := db.tasks[t := task.(status := TaskQueued, runner := None, token := None, lease := None)];
        db.verifications := db.verifications[a := db.verifications[a].(status := Queued)];
        return;
      }
      Decide(a, succeeded, now);
    }

    method Decide(a: ActionId, passed: bool, now: Time)
      requires a in db.actions && a in db.executions && a in db.verifications && LocksAreOwned(db.State())
      modifies db
      ensures db.State() == ActionVerifications.Decided(old(db.State()), a, passed, now)
    {
      hide LocksAreOwned, ResourceLocks.LockOf;
      var locks := new ResourceLockService(db, cfg);
      var found := locks.GetForAction(a);
      var action, target := db.actions[a], if passed then Succeeded else VerificationFailed;
      db.verifications := db.verifications[a := db.verifications[a].(
        status := if passed then Passed else NotPassed, compensationRequired := !passed && action.rollback.Some?)];
      db.actions := db.actions[a := action.(status := target, version := action.version + 1)];
      db.executions := db.executions[a := db.executions[a].(status := target)];
      if found.Some? {
        var lock := db.locks[found.value];
        db.locks := db.locks[found.value := if passed then lock.(released := true, frozen := false, expires := now)
                                            else lock.(frozen := true, expires := now)];
      }
    }
  }
}
