/** The action dispatcher as it runs (backend/app/services/action_dispatcher.py) and the creation and
    cancellation of actions (backend/app/services/actions.py). */
module DispatcherService {
  import opened Common
  import opened Records
  import opened Tables
  import opened ActionInvariants
  import opened ActionServices
  import ActionDispatcher
  import Effects
  import ActionSteps
  import ActionVerifications
  import ResourceLocks
  import StepRelations

  /** Freezing the lock of one more action is freezing the locks of the larger set, in whatever order the rows
      come. */
  lemma FreezeOneMore(db: Db, done: set<ActionId>, a: ActionId, now: Time)
    requires LocksAreOwned(db) && a in db.actions && a !in done
    ensures var frozen := ActionDispatcher.FrozenLocks(db.locks, done, now);
            var r := db.actions[a].resource;
            ActionDispatcher.FrozenLocks(db.locks, done + {a}, now) ==
            if r in frozen && frozen[r].owner == a && !frozen[r].released
            then frozen[r := frozen[r].(frozen := true, expires := now)] else frozen
  {
  }

  lemma LapseOneMore<S>(executions: map<ActionId, Execution<S>>, done: set<ActionId>, a: ActionId, unknown: S)
    requires a in executions && a !in done
    ensures var lapsed := ActionDispatcher.LapsedExecutions(executions, done, unknown);
            ActionDispatcher.LapsedExecutions(executions, done + {a}, unknown)
            == lapsed[a := lapsed[a].(status := unknown, lease := None)]
  {
  }

  lemma ActOneMore(actions: map<ActionId, Action>, done: set<ActionId>, a: ActionId)
    requires a in actions && a !in done
    ensures var lapsed := ActionDispatcher.LapsedActions(actions, done);
            ActionDispatcher.LapsedActions(actions, done + {a})
            == lapsed[a := lapsed[a].(status := Unknown, version := lapsed[a].version + 1)]
  {
  }

  /** One round of the recovery loop. */
  function RecoverOne(db: Db, a: ActionId, now: Time): Db
    requires a in db.executions && a in db.actions
  {
    var locks := match ResourceLocks.LockOf(db, a)
                 case None => db.locks
                 case Some(lock) => db.locks[db.actions[a].resource := lock.(frozen := true, expires := now)];
    db.(executions := db.executions[a := db.executions[a].(status := Unknown, lease := None)],
        actions := db.actions[a := db.actions[a].(status := Unknown, version := db.actions[a].version + 1)],
        locks := locks)
  }

  lemma RecoverOneMore(db: Db, done: set<ActionId>, a: ActionId, now: Time)
    requires LocksAreOwned(db) && a in db.executions && a in db.actions && a !in done
    ensures var mid := ActionDispatcher.RecoverSet(db, done, now);
            && a in mid.executions && a in mid.actions
            && RecoverOne(mid, a, now) == ActionDispatcher.RecoverSet(db, done + {a}, now)
  {
    hide ActionDispatcher.FrozenLocks, ActionDispatcher.LapsedExecutions, ActionDispatcher.LapsedActions;
    RecoveredStayOwned(db, done, now);
    FreezeOneMore(db, done, a, now);
    LapseOneMore(db.executions, done, a, Unknown);
    ActOneMore(db.actions, done, a);
  }

  lemma RecoverNone(db: Db, now: Time)
    ensures ActionDispatcher.RecoverSet(db, {}, now) == db
  {
    var same := ActionDispatcher.RecoverSet(db, {}, now);
    assert same.executions == db.executions && same.actions == db.actions && same.locks == db.locks;
  }

  /** Keys and resources do not change. */
  lemma RecoveredStayOwned(db: Db, done: set<ActionId>, now: Time)
    requires LocksAreOwned(db)
    ensures var db' := ActionDispatcher.RecoverSet(db, done, now);
            && LocksAreOwned(db') && db'.actions.Keys == db.actions.Keys && db'.executions.Keys == db.executions.Keys
            && forall a :: a in db.actions ==> db'.actions[a].resource == db.actions[a].resource
  {
  }

  class ActionDispatcherService {
    const db: Database
    const cfg: Settings

    constructor (db: Database, cfg: Settings)
      ensures this.db == db && this.cfg == cfg
    {
      this.db, this.cfg := db, cfg;
    }

    method RecoverRow(a: ActionId, now: Time)
      requires LocksAreOwned(db.State()) && a in db.executions && a in db.actions
      modifies db
      ensures db.State() == RecoverOne(old(db.State()), a, now)
    {
      var locks := new ResourceLockService(db, cfg);
      var found := locks.GetForAction(a);
      db.executions := db.executions[a := db.executions[a].(status := Unknown, lease := None)];
      db.actions := db.actions[a := db.actions[a].(status := Unknown, version := db.actions[a].version + 1)];
      if found.Some? {
        db.locks := db.locks[found.value := db.locks[found.value].(frozen := true, expires := now)];
      }
    }

    /** `recover_expired`: the rows may come in any order. */
    method RecoverExpired(now: Time)
      requires Inv(db.State())
      modifies db
      ensures db.State() == ActionDispatcher.RecoverExpired(old(db.State()), now)
      ensures Effects.OnlyLapsed(old(db.State()), db.State(), now)
    {
      hide Effects.OnlyLapsed, Inv, ActionDispatcher.RecoverSet, RecoverOne, LocksAreOwned, ActionDispatcher.Expired;
      Effects.RecoveryLapses(db.State(), now);
      ghost var before := db.State();
      ghost var lapsed := ActionDispatcher.ExpiredRunning(before, now);
      var todo := set a | a in db.executions && db.executions[a].status.Running?
                          && ActionDispatcher.Expired(db.executions[a], now);
      LocksOfInv(before);
      RecoverNone(before, now);
      assert lapsed - todo == {};
      while todo != {}
        invariant todo <= lapsed && lapsed <= before.executions.Keys
        invariant db.State() == ActionDispatcher.RecoverSet(before, lapsed - todo, now)
        decreases |todo|
      {
        var a :| a in todo;
        RecoveredStayOwned(before, lapsed - todo, now);
        RecoverOneMore(before, lapsed - todo, a, now);
        assert lapsed - todo + {a} == lapsed - (todo - {a});
        RecoverRow(a, now);
        todo := todo - {a};
      }
      assert lapsed - {} == lapsed;
    }

    method Create(a: ActionId, action: Action) returns (reply: Reply)
      requires Inv(db.State())
      modifies db
      ensures var o := ActionDispatcher.Create(old(db.State()), a, action);
              reply == Answer(o) && db.State() == After(old(db.State()), o) && Inv(db.State())
      ensures reply.Done? ==>
                && a !in old(db.actions) && a in db.actions && db.actions[a].status.Ready? && db.actions[a].version == 1
                && db.actions[a].(status := action.status, version := action.version) == action
    {
      hide Inv, StepRelations.Progresses;
      ghost var before := db.State();
      if a in db.actions { return Error(ActionExists); }
      db.actions := db.actions[a := action.(status := Ready, version := 1)];
      reply := Done;
      Advanced(cfg, before, ActionSteps.CreateAction(a, action));
    }

    method Cancel(a: ActionId, expectedVersion: nat, now: Time) returns (reply: Reply)
      requires Inv(db.State())
      modifies db
      ensures var o := ActionDispatcher.Cancel(old(db.State()), a, expectedVersion, now);
              reply == Answer(o) && db.State() == After(old(db.State()), o) && Inv(db.State())
      ensures reply.Done? ==> Effects.Cancelled(db.State(), a)
    {
      hide Effects.Cancelled, Inv, LocksAreOwned;
      Effects.CancellationEnds(db.State(), a, expectedVersion, now);
      ghost var before := db.State();
      if a !in db.actions { return Error(ActionNotFound); }
      var action := db.actions[a];
      if action.version != expectedVersion { return Error(ActionVersionConflict); }
      if !action.status.Ready? { return Error(ActionNotCancellable); }
      LocksOfInv(before);
      var locks := new ResourceLockService(db, cfg);
      var found := locks.GetForAction(a);
      db.actions := db.actions[a := action.(status := Cancelled, version := action.version + 1)];
      if found.Some? {
        db.locks := db.locks[found.value := db.locks[found.value].(released := true, expires := now)];
      }
      reply := Done;
      Advanced(cfg, before, ActionSteps.CancelAction(a, expectedVersion, now));
    }

    method Dispatch(a: ActionId, authorised: bool, selected: Option<RunnerId>, now: Time) returns (reply: Reply)
      requires Inv(db.State())
      modifies db
      ensures var o := ActionDispatcher.Dispatch(cfg, old(db.State()), a, authorised, selected, now);
              reply == Answer(o) && db.State() == After(old(db.State()), o) && Inv(db.State())
      ensures reply.Done? ==> selected.Some? && Effects.DispatchedTo(db.State(), a, selected.value)
    {
      hide Effects.DispatchedTo, Inv, ActionDispatcher.RecoverExpired, ResourceLocks.Acquire,
           ActionDispatcher.Dispatched;
      Effects.DispatchStarts(cfg, db.State(), a, authorised, selected, now);
      var before := db.State();
      RecoverExpired(now);
      Advanced(cfg, before, ActionSteps.Dispatch(a, authorised, selected, now));
      if a !in db.actions { db.Rollback(before); return Error(ActionNotFound); }
      if a in db.executions { return Repeated; }
      if !db.actions[a].status.Ready? { db.Rollback(before); return Error(ActionNotDispatchable); }
      var locks := new ResourceLockService(db, cfg);
      ActionSteps.AcquiredOwnsIf(cfg, db.State(), a, authorised, now);
      var acquired := locks.Acquire(a, authorised, now);
      if acquired.Error? { db.Rollback(before); return acquired; }
      if selected.None? { db.Rollback(before); return Error(RunnerUnavailable); }
      CreateExecution(a, selected.value);
      return Done;
    }

    method CreateExecution(a: ActionId, runner: RunnerId)
      requires a in db.actions && db.actions[a].resource in db.locks
      modifies db
      ensures db.State() == ActionDispatcher.Dispatched(old(db.State()), a, runner)
    {
      var token := db.locks[db.actions[a].resource].token;
      db.executions :=
        db.executions[a := Execution(runner, Dispatching, ActionDispatcher.EXECUTION_TOKEN, token, None, None)];
      db.actions := db.actions[a := db.actions[a].(status := Dispatching, version := db.actions[a].version + 1)];
    }

    /** `candidate` is the answer of `claim_for_runner`. */
    method Claim(runner: RunnerId, candidate: Option<ActionId>, now: Time) returns (reply: Reply)
      requires Inv(db.State())
      modifies db
      ensures var o := ActionDispatcher.Claim(cfg, old(db.State()), runner, candidate, now);
              reply == Answer(o) && db.State() == After(old(db.State()), o) && Inv(db.State())
      ensures reply.Done? ==> candidate.Some? && Effects.Started(cfg, db.State(), candidate.value, runner, now)
    {
      hide Effects.Started, Inv, ActionDispatcher.RecoverExpired, LocksAreOwned, ActionDispatcher.ClaimRow;
      Effects.ClaimStarts(cfg, db.State(), runner, candidate, now);
      var before := db.State();
      Advanced(cfg, before, ActionSteps.Claim(runner, candidate, now));
      RecoveredInv(before, now);
      RecoverExpired(now);
      if candidate.None? { return Nothing; }
      LocksOfInv(db.State());
      NeverRepeated(cfg, db.State(), runner, candidate.value, now);
      reply := ClaimRow(runner, candidate.value, now);
      if reply.Error? { db.Rollback(before); }
    }

    method ClaimRow(runner: RunnerId, a: ActionId, now: Time) returns (reply: Reply)
      requires LocksAreOwned(db.State()) && db.executions.Keys <= db.actions.Keys
      modifies db
      ensures var o := ActionDispatcher.ClaimRow(cfg, old(db.State()), runner, a, now);
              reply == Answer(o) && db.State() == After(old(db.State()), o)
    {
      hide LocksAreOwned, ResourceLocks.LockOf;
      if a !in db.executions || db.executions[a].runner != runner || !db.executions[a].status.Dispatching? {
        return Error(NotOffered);
      }
      var locks := new ResourceLockService(db, cfg);
      var found := locks.GetForAction(a);
      if found.None? || db.locks[found.value].token != db.executions[a].token { return Error(LockInvalid); }
      db.executions :=
        db.executions[a := db.executions[a].(status := Running, lease := Some(now + cfg.executionLease))];
      db.actions := db.actions[a := db.actions[a].(status := Running, version := db.actions[a].version + 1)];
      db.locks := db.locks[found.value := db.locks[found.value].(expires := now + cfg.lockLease)];
      return Done;
    }

    /** `_owned_running`: the lock's resource, or why the request is refused. */
    method OwnedRunning(a: ActionId, runner: RunnerId, executionToken: Token, token: Token, now: Time)
      returns (error: Option<Code>, r: ResourceId)
      requires LocksAreOwned(db.State())
      ensures error == ActionDispatcher.OwnershipError(db.State(), a, runner, executionToken, token, now)
      ensures error.None? ==> a in db.actions && a in db.executions && r == db.actions[a].resource && r in db.locks
                              && ResourceLocks.LockOf(db.State(), a) == Some(db.locks[r])
    {
      hide LocksAreOwned;
      r := 0;
      if a !in db.executions { return Some(ExecutionNotFound), r; }
      var e := db.executions[a];
      if e.runner != runner || e.executionToken != executionToken || e.token != token {
        return Some(ExecutionFenced), r;
      }
      if !e.status.Running? { return Some(ActionNotRunning), r; }
      if e.lease.None? || e.lease.value <= now { return Some(ExecutionLeaseExpired), r; }
      var locks := new ResourceLockService(db, cfg);
      var found := locks.GetForAction(a);
      if found.None? || db.locks[found.value].token != token { return Some(LockInvalid), r; }
      return None, found.value;
    }

    method Renew(a: ActionId, runner: RunnerId, executionToken: Token, token: Token, now: Time) returns (reply: Reply)
      requires Inv(db.State())
      modifies db
      ensures var o := ActionDispatcher.Renew(cfg, old(db.State()), a, runner, executionToken, token, now);
              reply == Answer(o) && db.State() == After(old(db.State()), o) && Inv(db.State())
      ensures reply.Done? ==> Effects.Started(cfg, db.State(), a, runner, now)
    {
      hide Effects.Started, Inv, ActionDispatcher.OwnershipError, LocksAreOwned, ResourceLocks.LockOf;
      Effects.RenewalExtends(cfg, db.State(), a, runner, executionToken, token, now);
      ghost var before := db.State();
      Advanced(cfg, before, ActionSteps.Renew(a, runner, executionToken, token, now));
      LocksOfInv(before);
      var error, r := OwnedRunning(a, runner, executionToken, token, now);
      if error.Some? { return Error(error.value); }
      db.executions := db.executions[a := db.executions[a].(lease := Some(now + cfg.executionLease))];
      db.locks := db.locks[r := db.locks[r].(expires := now + cfg.lockLease)];
      return Done;
    }

    /** `task` is the fresh id of the verification task. */
    method Complete(a: ActionId, runner: RunnerId, completion: CompletionId, executionToken: Token, token: Token,
                    succeeded: bool, task: TaskId, now: Time) returns (reply: Reply)
      requires Inv(db.State())
      modifies db
      ensures var o := ActionDispatcher.Complete(old(db.State()), a, runner, completion, executionToken, token,
                                                 succeeded, task, now);
              reply == Answer(o) && db.State() == After(old(db.State()), o) && Inv(db.State())
      ensures reply.Done? ==>
                Effects.CompletionSettled(old(db.State()), db.State(), a, completion, succeeded, task)
    {
      hide Effects.CompletionSettled, Inv, ActionDispatcher.OwnershipError, LocksAreOwned, ResourceLocks.LockOf,
           ActionDispatcher.Completed;
      Effects.CompletionSettles(db.State(), a, runner, completion, executionToken, token, succeeded, task, now);
      ghost var before := db.State();
      Advanced(cfg, before, ActionSteps.Complete(a, runner, completion, executionToken, token, succeeded, task, now));
      LocksOfInv(before);
      if a !in db.executions { return Error(ExecutionNotFound); }
      if db.executions[a].completion == Some(completion) { return Repeated; }
      var error, r := OwnedRunning(a, runner, executionToken, token, now);
      if error.Some? { return Error(error.value); }
      if succeeded && task in db.tasks { return Error(NotOffered); }
      Settle(a, r, runner, completion, succeeded, task, now);
      return Done;
    }

    method Settle(a: ActionId, r: ResourceId, runner: RunnerId, completion: CompletionId, succeeded: bool, task: TaskId,
                  now: Time)
      requires a in db.actions && a in db.executions && r == db.actions[a].resource && r in db.locks
      modifies db
      ensures db.State() == ActionDispatcher.Completed(old(db.State()), a, old(db.locks[r]), runner, completion,
                                                       succeeded, task, now)
    {
      hide ActionVerifications.Create;
      db.executions := db.executions[a := db.executions[a].(status := if succeeded then Applied else Failed,
                                                            completion := Some(completion), lease := None)];
      db.actions := db.actions[a := db.actions[a].(status := if succeeded then Verifying else Failed,
                                                   version := db.actions[a].version + 1)];
      if succeeded {
        db.locks := db.locks[r := db.locks[r].(frozen := true, expires := now)];
        var verifications := new ActionVerificationService(db, cfg);
        verifications.Create(a, runner, task);
      } else {
        db.locks := db.locks[r := db.locks[r].(released := true, expires := now)];
      }
    }

    method Reconcile(a: ActionId, expectedVersion: nat, succeeded: bool, now: Time) returns (reply: Reply)
      requires Inv(db.State())
      modifies db
      ensures var o := ActionDispatcher.Reconcile(old(db.State()), a, expectedVersion, succeeded, now);
              reply == Answer(o) && db.State() == After(old(db.State()), o) && Inv(db.State())
      ensures reply.Done? ==> Effects.ReconciliationSettled(old(db.State()), db.State(), a, succeeded)
    {
      hide Effects.ReconciliationSettled, Inv, LocksAreOwned, ResourceLocks.LockOf, ActionDispatcher.Settled;
      Effects.ReconciliationSettles(db.State(), a, expectedVersion, succeeded, now);
      ghost var before := db.State();
      Advanced(cfg, before, ActionSteps.Reconcile(a, expectedVersion, succeeded, now));
      LocksOfInv(before);
      if a !in db.actions || a !in db.executions { return Error(ActionNotFound); }
      if db.actions[a].version != expectedVersion { return Error(ActionVersionConflict); }
      if !db.actions[a].status.Unknown? { return Error(ActionNotReconcilable); }
      var locks := new ResourceLockService(db, cfg);
      var found := locks.GetForAction(a);
      SettleUnknown(a, succeeded);
      if found.Some? {
        db.locks := db.locks[found.value := db.locks[found.value].(frozen := false, released := true, expires := now)];
      }
      return Done;
    }

    method SettleUnknown(a: ActionId, succeeded: bool)
      requires a in db.actions && a in db.executions
      modifies db
      ensures db.State() == ActionDispatcher.Settled(old(db.State()), a, succeeded)
      ensures db.locks == old(db.locks) && a in db.actions && db.actions[a].resource == old(db.actions[a].resource)
    {
      var target := if succeeded then Succeeded else Failed;
      db.actions := db.actions[a := db.actions[a].(status := target, version := db.actions[a].version + 1)];
      db.executions := db.executions[a := db.executions[a].(status := target)];
    }
  }

  /** The invariant after a request, whatever it answers. */
  lemma Advanced(cfg: Settings, db: Db, s: ActionSteps.ActionStep)
    requires Inv(db)
    ensures Inv(After(db, ActionSteps.Apply(cfg, db, s)))
  {
    hide Inv, ActionSteps.Apply, StepRelations.Grows, StepRelations.ActionTablesOnly, StepRelations.LeavesOutcomes,
      Exclusive;
    ActionSteps.StepAdvances(cfg, db, s);
  }

  lemma NeverRepeated(cfg: Settings, db: Db, runner: RunnerId, a: ActionId, now: Time)
    ensures var o := ActionDispatcher.ClaimRow(cfg, db, runner, a, now); o.Accepted? || o.Refused?
  {
  }

  lemma RecoveredInv(db: Db, now: Time)
    requires Inv(db)
    ensures Inv(ActionDispatcher.RecoverExpired(db, now))
  {
    hide Inv, ActionDispatcher.RecoverExpired, StepRelations.Grows, StepRelations.ActionTablesOnly,
      StepRelations.LeavesOutcomes, Exclusive;
    ActionSteps.RecoverAdvances(db, now);
  }
}
