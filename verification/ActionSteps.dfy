/** The requests on actions and their resource locks as steps of a run, and what each of them keeps. */
module ActionSteps {
  import opened Common
  import opened Records
  import opened ActionInvariants
  import opened ActionPreservation
  import opened RecoveryPreservation
  import opened StepRelations
  import opened CaseSteps
  import opened ResourceLocks
  import ActionDispatcher
  import ActionVerifications

  datatype ActionStep =
    | CreateAction(a: ActionId, action: Action)
    | CancelAction(a: ActionId, version: nat, now: Time)
    | AcquireLock(a: ActionId, authorised: bool, now: Time)
    | RenewLock(a: ActionId, token: Token, now: Time)
    | ReleaseLock(a: ActionId, token: Token, now: Time)
    | Dispatch(a: ActionId, authorised: bool, selected: Option<RunnerId>, now: Time)
    | Claim(runner: RunnerId, candidate: Option<ActionId>, now: Time)
    | Renew(a: ActionId, runner: RunnerId, executionToken: Token, token: Token, now: Time)
    | Complete(a: ActionId, runner: RunnerId, completion: CompletionId, executionToken: Token, token: Token,
               succeeded: bool, task: TaskId, now: Time)
    | Reconcile(a: ActionId, version: nat, succeeded: bool, now: Time)
    | Recover(now: Time)

  function Apply(cfg: Settings, db: Db, s: ActionStep): Outcome {
    match s
    case CreateAction(a, action) => ActionDispatcher.Create(db, a, action)
    case CancelAction(a, version, now) => ActionDispatcher.Cancel(db, a, version, now)
    case AcquireLock(a, authorised, now) => Acquire(cfg, db, a, authorised, now)
    case RenewLock(a, token, now) => ResourceLocks.Renew(cfg, db, a, token, now)
    case ReleaseLock(a, token, now) => Release(db, a, token, now)
    case Dispatch(a, authorised, selected, now) => ActionDispatcher.Dispatch(cfg, db, a, authorised, selected, now)
    case Claim(runner, candidate, now) => ActionDispatcher.Claim(cfg, db, runner, candidate, now)
    case Renew(a, runner, x, token, now) => ActionDispatcher.Renew(cfg, db, a, runner, x, token, now)
    case Complete(a, runner, completion, x, token, succeeded, task, now) =>
      ActionDispatcher.Complete(db, a, runner, completion, x, token, succeeded, task, now)
    case Reconcile(a, version, succeeded, now) => ActionDispatcher.Reconcile(db, a, version, succeeded, now)
    case Recover(now) => Accepted(ActionDispatcher.RecoverExpired(db, now))
  }

  // ----- Dispatch: recovery, acquisition, execution ---------------------------------------------------

  lemma RecoverAdvances(db: Db, now: Time)
    requires Inv(db)
    ensures Advances(db, ActionDispatcher.RecoverExpired(db, now))
    ensures Exclusive(db) ==> Exclusive(ActionDispatcher.RecoverExpired(db, now))
  {
    hide Inv, Advances, Exclusive, AreRunning, ActionDispatcher.RecoverSet, ActionDispatcher.ExpiredRunning;
    ExpiredAreRunning(db, now);
    RecoverKeeps(db, ActionDispatcher.ExpiredRunning(db, now), now);
  }

  /** After recovery a running owner's lock outlives `now`, so it is not free to be taken. */
  lemma NoTakeoverAfterRecovery(cfg: Settings, before: Db, a: ActionId, authorised: bool, now: Time, c': Case)
    requires Inv(ActionDispatcher.RecoverExpired(before, now))
      && Exclusive(ActionDispatcher.RecoverExpired(before, now))
    requires Acquire(cfg, ActionDispatcher.RecoverExpired(before, now), a, authorised, now).Accepted?
    requires a in ActionDispatcher.RecoverExpired(before, now).actions
    ensures SparesRunning(ActionDispatcher.RecoverExpired(before, now), a, c')
  {
    hide Inv, ActionDispatcher.RecoverExpired, CaseOk, LockOk;
    NothingExpiredIsLeft(before, now);
    var db := ActionDispatcher.RecoverExpired(before, now);
    var c := CaseOf(db, a);
    if c.lock.Some? && c.lock.value.owner in db.actions && db.actions[c.lock.value.owner].status.Running? {
      CaseFacts(db, a);
      OwnersResource(db, a);
      assert ExclusiveCase(c.lock.value.owner, CaseOf(db, c.lock.value.owner));
      RunningExecution(db, c.lock.value.owner);
    }
  }

  lemma OwnersResource(db: Db, a: ActionId)
    requires a in db.actions && db.actions[a].resource in db.locks && LockOk(db, db.actions[a].resource)
    ensures var b := db.locks[db.actions[a].resource].owner;
            b in db.actions && CaseOf(db, b).lock == CaseOf(db, a).lock
  {
  }

  lemma RunningExecution(db: Db, b: ActionId)
    requires Inv(db) && b in db.actions && db.actions[b].status.Running?
    ensures b in db.executions && db.executions[b].status.Running? && db.executions[b].lease.Some?
  {
    hide LockOk;
    assert CaseOk(b, CaseOf(db, b));
  }

  lemma AcquireKeeps(cfg: Settings, db: Db, a: ActionId, authorised: bool, now: Time)
    requires Inv(db) && !Acquire(cfg, db, a, authorised, now).Refused?
    ensures var db' := Acquire(cfg, db, a, authorised, now).db;
            && a in db.actions && Advances(db, db')
            && (Exclusive(db) && (forall c' :: SparesRunning(db, a, c')) ==> Exclusive(db'))
  {
    hide Inv, Advances, Exclusive, GoodWrite, SparesRunning, ExclusiveCase;
    var o := Acquire(cfg, db, a, authorised, now);
    if o.Accepted? {
      var c' := AcquireWrites(cfg, db, a, authorised, now);
      GoodWriteAdvances(db, o.db, a, c');
    } else {
      NothingAdvances(db);
    }
  }

  lemma DispatchedKeeps(db: Db, a: ActionId, runner: RunnerId)
    requires Inv(db) && a in db.actions && db.actions[a].status.Ready?
    requires db.actions[a].resource in db.locks && db.locks[db.actions[a].resource].owner == a
    ensures Advances(db, ActionDispatcher.Dispatched(db, a, runner))
    ensures Exclusive(db) ==> Exclusive(ActionDispatcher.Dispatched(db, a, runner))
  {
    hide Inv, Advances, Exclusive, GoodWrite, SparesRunning, ExclusiveCase, ActionDispatcher.Dispatched;
    var c' := DispatchedWrites(db, a, runner);
    GoodWriteAdvances(db, ActionDispatcher.Dispatched(db, a, runner), a, c');
  }

  lemma AcquiredOwns(cfg: Settings, db: Db, a: ActionId, authorised: bool, now: Time)
    requires !Acquire(cfg, db, a, authorised, now).Refused?
    ensures var db' := Acquire(cfg, db, a, authorised, now).db;
            && a in db'.actions && db'.actions == db.actions && db'.actions[a].status.Ready?
            && db'.actions[a].resource in db'.locks && db'.locks[db'.actions[a].resource].owner == a
  {
    hide Grant;
    var r := db.actions[a].resource;
    GrantOwns(db, a, Lock(a, 1, now + cfg.lockLease, false, false));
    if r in db.locks {
      GrantOwns(db, a, db.locks[r].(owner := a, token := db.locks[r].token + 1, expires := now + cfg.lockLease,
                                    released := false));
    }
  }

  lemma AcquiredOwnsIf(cfg: Settings, db: Db, a: ActionId, authorised: bool, now: Time)
    ensures var o := Acquire(cfg, db, a, authorised, now);
            && !o.Idle? && (o.Replayed? ==> o.db == db)
            && (!o.Refused? ==> a in o.db.actions && o.db.actions == db.actions && a in db.actions
                                && db.actions[a].resource in o.db.locks)
  {
    hide Acquire;
    ReplayChangesNothing(cfg, db, a, authorised, now);
    if !Acquire(cfg, db, a, authorised, now).Refused? { AcquiredOwns(cfg, db, a, authorised, now); }
  }

  lemma GrantOwns(db: Db, a: ActionId, lock: Lock)
    requires a in db.actions
    ensures var db' := Grant(db, a, lock);
            db'.actions == db.actions && db.actions[a].resource in db'.locks
              && db'.locks[db.actions[a].resource] == lock
  {
  }

  lemma DispatchKeeps(cfg: Settings, db: Db, a: ActionId, authorised: bool, selected: Option<RunnerId>, now: Time)
    requires Inv(db)
    ensures var db' := After(db, ActionDispatcher.Dispatch(cfg, db, a, authorised, selected, now));
            Advances(db, db') && (Exclusive(db) ==> Exclusive(db'))
  {
    hide Inv, Advances, Exclusive, SparesRunning, Acquire, ActionDispatcher.RecoverExpired, ActionDispatcher.Dispatched;
    NothingAdvances(db);
    var recovered := ActionDispatcher.RecoverExpired(db, now);
    RecoverAdvances(db, now);
    AdvancedInv(db, recovered);
    if ActionDispatcher.Dispatch(cfg, db, a, authorised, selected, now).Accepted? {
      var acquired := Acquire(cfg, recovered, a, authorised, now);
      AcquireKeeps(cfg, recovered, a, authorised, now);
      AcquiredOwns(cfg, recovered, a, authorised, now);
      if Exclusive(db) && acquired.Accepted? {
        forall c' ensures SparesRunning(recovered, a, c') {
          NoTakeoverAfterRecovery(cfg, db, a, authorised, now, c');
        }
      }
      ReplayChangesNothing(cfg, recovered, a, authorised, now);
      AdvancedInv(recovered, acquired.db);
      DispatchedKeeps(acquired.db, a, selected.value);
      AdvancesOn(db, recovered, acquired.db);
      AdvancesOn(db, acquired.db, ActionDispatcher.Dispatched(acquired.db, a, selected.value));
    }
  }

  lemma ReplayChangesNothing(cfg: Settings, db: Db, a: ActionId, authorised: bool, now: Time)
    ensures var o := Acquire(cfg, db, a, authorised, now);
            (o.Replayed? ==> o.db == db) && !o.Idle?
  {
  }

  lemma AdvancedInv(db: Db, db': Db)
    requires Advances(db, db')
    ensures Inv(db')
  {
  }

  lemma ClaimKeeps(cfg: Settings, db: Db, runner: RunnerId, candidate: Option<ActionId>, now: Time)
    requires Inv(db)
    ensures var db' := After(db, ActionDispatcher.Claim(cfg, db, runner, candidate, now));
            Advances(db, db') && (LeasesCover(cfg) && Exclusive(db) ==> Exclusive(db'))
  {
    hide Inv, Advances, Exclusive, SparesRunning, ActionDispatcher.RecoverExpired, GoodWrite, ExclusiveCase,
      LeasesCover;
    NothingAdvances(db);
    var recovered := ActionDispatcher.RecoverExpired(db, now);
    RecoverAdvances(db, now);
    AdvancedInv(db, recovered);
    var o := ActionDispatcher.Claim(cfg, db, runner, candidate, now);
    if o.Accepted? {
      var c' := ClaimWrites(cfg, recovered, runner, candidate.value, now);
      GoodWriteAdvances(recovered, o.db, candidate.value, c');
      AdvancesOn(db, recovered, o.db);
    }
  }

  // ----- Every step ---------------------------------------------------------------------------------------

  /** A ready and authorised action asks for a lock whose lease ran out, while the action that owns it still runs
      because nothing recovered it. */
  predicate TakesOver(db: Db, s: ActionStep) {
    && s.AcquireLock? && s.authorised && s.a in db.actions && db.actions[s.a].status.Ready?
    && db.actions[s.a].resource in db.locks
    && var lock := db.locks[db.actions[s.a].resource];
       && !lock.released && !lock.frozen && lock.expires <= s.now
       && lock.owner != s.a && lock.owner in db.actions && db.actions[lock.owner].status.Running?
  }

  lemma TakeoverIsAccepted(cfg: Settings, db: Db, s: ActionStep)
    requires TakesOver(db, s)
    ensures Acquire(cfg, db, s.a, s.authorised, s.now).Accepted?
  {
  }

  /** Under exclusion the lock of a running owner is unreleased, so only a takeover can take it. */
  lemma NotTakenOver(cfg: Settings, db: Db, s: ActionStep, c': Case)
    requires Inv(db) && Exclusive(db) && s.AcquireLock? && !TakesOver(db, s)
    requires s.a in db.actions && Acquire(cfg, db, s.a, s.authorised, s.now).Accepted?
    ensures SparesRunning(db, s.a, c')
  {
    hide Inv, CaseOk, LockOk;
    var c := CaseOf(db, s.a);
    if c.lock.Some? && c.lock.value.owner in db.actions && db.actions[c.lock.value.owner].status.Running? {
      CaseFacts(db, s.a);
      OwnersResource(db, s.a);
      assert ExclusiveCase(c.lock.value.owner, CaseOf(db, c.lock.value.owner));
    }
  }

  lemma SameCasesAdvance(db: Db, db': Db)
    requires Inv(db) && Inv(db') && db'.locks == db.locks && db'.grants == db.grants
    requires db'.tasks == db.tasks && db'.runs == db.runs && db'.waits == db.waits
    requires forall a :: a in db.actions ==> a in db'.actions && CaseOf(db', a) == CaseOf(db, a)
    ensures Advances(db, db')
  {
    hide Inv, CaseOf;
    TableFacts(db);
  }

  lemma OldCase(db: Db, a: ActionId, action: Action, b: ActionId)
    requires b in db.actions && a !in db.actions
    ensures CaseOf(db.(actions := db.actions[a := action]), b) == CaseOf(db, b)
  {
  }

  lemma CreateTables(db: Db, a: ActionId, action: Action)
    ensures var db' := After(db, ActionDispatcher.Create(db, a, action));
            && db' == db.(actions := db'.actions)
            && forall b :: b in db.actions ==> b in db'.actions && CaseOf(db', b) == CaseOf(db, b)
  {
    hide CaseOf;
    if a !in db.actions {
      forall b | b in db.actions
        ensures CaseOf(db.(actions := db.actions[a := action.(status := Ready, version := 1)]), b) == CaseOf(db, b)
      {
        OldCase(db, a, action.(status := Ready, version := 1), b);
      }
    }
  }

  lemma CreateKeeps(db: Db, a: ActionId, action: Action)
    requires Inv(db)
    ensures var db' := After(db, ActionDispatcher.Create(db, a, action));
            Advances(db, db') && (Exclusive(db) ==> Exclusive(db'))
  {
    hide Inv, Exclusive, Advances, CaseOf, ActionDispatcher.Create, After;
    CreateTables(db, a, action);
    CreateKeepsInv(db, a, action);
    SameCasesAdvance(db, After(db, ActionDispatcher.Create(db, a, action)));
  }

  lemma CancelKeeps(db: Db, a: ActionId, version: nat, now: Time)
    requires Inv(db)
    ensures var db' := After(db, ActionDispatcher.Cancel(db, a, version, now));
            Advances(db, db') && (Exclusive(db) ==> Exclusive(db'))
  {
    hide Inv, Advances, Exclusive, SparesRunning, GoodWrite, ExclusiveCase, LockOf, SetLock, ActionDispatcher.SetAction;
    var o := ActionDispatcher.Cancel(db, a, version, now);
    NothingAdvances(db);
    if o.Accepted? {
      var c' := CancelWrites(db, a, version, now);
      GoodWriteAdvances(db, o.db, a, c');
    }
  }

  lemma ManualKeeps(cfg: Settings, db: Db, a: ActionId, token: Token, now: Time)
    requires Inv(db)
    ensures var db' := After(db, ResourceLocks.Renew(cfg, db, a, token, now));
            Advances(db, db') && (Exclusive(db) ==> Exclusive(db'))
    ensures var db' := After(db, Release(db, a, token, now));
            Advances(db, db') && (Exclusive(db) ==> Exclusive(db'))
  {
    hide Inv, Advances, Exclusive, SparesRunning, GoodWrite, ExclusiveCase, ManualChangeError;
    NothingAdvances(db);
    if ManualChangeError(db, a, token, now).None? {
      var c' := ManualRenewWrites(cfg, db, a, token, now);
      GoodWriteAdvances(db, ResourceLocks.Renew(cfg, db, a, token, now).db, a, c');
      var d' := ManualReleaseWrites(db, a, token, now);
      GoodWriteAdvances(db, Release(db, a, token, now).db, a, d');
    }
  }

  lemma RenewKeeps(cfg: Settings, db: Db, a: ActionId, runner: RunnerId, x: Token, token: Token, now: Time)
    requires Inv(db)
    ensures var db' := After(db, ActionDispatcher.Renew(cfg, db, a, runner, x, token, now));
            Advances(db, db') && (LeasesCover(cfg) && Exclusive(db) ==> Exclusive(db'))
  {
    hide Inv, Advances, Exclusive, SparesRunning, GoodWrite, ExclusiveCase, LeasesCover;
    var o := ActionDispatcher.Renew(cfg, db, a, runner, x, token, now);
    NothingAdvances(db);
    if o.Accepted? {
      var c' := RenewWrites(cfg, db, a, runner, x, token, now);
      GoodWriteAdvances(db, o.db, a, c');
    }
  }

  lemma CompleteKeeps(db: Db, a: ActionId, runner: RunnerId, completion: CompletionId, x: Token, token: Token,
                      succeeded: bool, task: TaskId, now: Time)
    requires Inv(db)
    ensures var db' := After(db, ActionDispatcher.Complete(db, a, runner, completion, x, token, succeeded, task, now));
            Advances(db, db') && (Exclusive(db) ==> Exclusive(db'))
  {
    hide Inv, Advances, Exclusive, SparesRunning, GoodWrite, ExclusiveCase, LockOf, SetLock, ActionDispatcher.SetAction,
      ActionVerifications.Create, ActionDispatcher.OwnershipError;
    var o := ActionDispatcher.Complete(db, a, runner, completion, x, token, succeeded, task, now);
    NothingAdvances(db);
    if o.Accepted? {
      var c' := CompleteWrites(db, a, runner, completion, x, token, succeeded, task, now);
      GoodWriteAdvances(db, o.db, a, c');
    }
  }

  lemma ReconcileKeeps(db: Db, a: ActionId, version: nat, succeeded: bool, now: Time)
    requires Inv(db)
    ensures var db' := After(db, ActionDispatcher.Reconcile(db, a, version, succeeded, now));
            Progresses(db, db') && (Exclusive(db) ==> Exclusive(db'))
  {
    hide Inv, Progresses, Exclusive, SparesRunning, Writes, TaskIsNew, ExclusiveCase, LockOf, SetLock,
      ActionDispatcher.SetAction;
    var o := ActionDispatcher.Reconcile(db, a, version, succeeded, now);
    NothingAdvances(db);
    if o.Accepted? {
      var c' := ReconcileWrites(db, a, version, succeeded, now);
      WriteProgresses(db, o.db, a, c');
    }
  }

  lemma AcquireStepKeeps(cfg: Settings, db: Db, a: ActionId, authorised: bool, now: Time)
    requires Inv(db)
    ensures var db' := After(db, Acquire(cfg, db, a, authorised, now));
            && Advances(db, db')
            && (Exclusive(db) && !TakesOver(db, AcquireLock(a, authorised, now)) ==> Exclusive(db'))
  {
    hide Inv, Advances, Exclusive, Acquire, TakesOver, SparesRunning;
    NothingAdvances(db);
    var o := Acquire(cfg, db, a, authorised, now);
    if !o.Refused? {
      AcquireKeeps(cfg, db, a, authorised, now);
      ReplayChangesNothing(cfg, db, a, authorised, now);
      if o.Accepted? && Exclusive(db) && !TakesOver(db, AcquireLock(a, authorised, now)) {
        forall c' ensures SparesRunning(db, a, c') {
          NotTakenOver(cfg, db, AcquireLock(a, authorised, now), c');
        }
      }
    }
  }

  /** Every request about actions and locks keeps the records in agreement and moves everything forward; only
      reconciliation settles an unknown outcome. If the lock leases cover the execution leases, exclusion is
      kept as long as no lock is taken over from a running action. */
  lemma StepAdvances(cfg: Settings, db: Db, s: ActionStep)
    requires Inv(db)
    ensures var db' := After(db, Apply(cfg, db, s));
            && Progresses(db, db') && (!s.Reconcile? ==> LeavesOutcomes(db, db'))
            && (LeasesCover(cfg) && Exclusive(db) && !TakesOver(db, s) ==> Exclusive(db'))
  {
    hide Inv, Progresses, LeavesOutcomes, Exclusive, LeasesCover, TakesOver, Acquire, ResourceLocks.Renew, Release,
      ActionDispatcher.Create, ActionDispatcher.Cancel, ActionDispatcher.Dispatch, ActionDispatcher.Claim,
      ActionDispatcher.Renew, ActionDispatcher.Complete, ActionDispatcher.Reconcile, ActionDispatcher.RecoverExpired;
    match s
    case CreateAction(a, action) => CreateKeeps(db, a, action);
    case CancelAction(a, version, now) => CancelKeeps(db, a, version, now);
    case AcquireLock(a, authorised, now) => AcquireStepKeeps(cfg, db, a, authorised, now);
    case RenewLock(a, token, now) => ManualKeeps(cfg, db, a, token, now);
    case ReleaseLock(a, token, now) => ManualKeeps(cfg, db, a, token, now);
    case Dispatch(a, authorised, selected, now) => DispatchKeeps(cfg, db, a, authorised, selected, now);
    case Claim(runner, candidate, now) => ClaimKeeps(cfg, db, runner, candidate, now);
    case Renew(a, runner, x, token, now) => RenewKeeps(cfg, db, a, runner, x, token, now);
    case Complete(a, runner, completion, x, token, succeeded, task, now) =>
      CompleteKeeps(db, a, runner, completion, x, token, succeeded, task, now);
    case Reconcile(a, version, succeeded, now) => ReconcileKeeps(db, a, version, succeeded, now);
    case Recover(now) => RecoverAdvances(db, now);
  }
}
