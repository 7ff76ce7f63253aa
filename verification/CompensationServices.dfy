/** The compensation service as it runs (backend/app/services/compensations.py). */
module CompensationServices {
  import opened Common
  import opened Records
  import opened Tables
  import opened ActionInvariants
  import opened ActionServices
  import ActionDispatcher
  import Effects
  import Compensations
  import CompensationSteps
  import ResourceLocks
  import InvestigationHitl
  import RunServices
  import StepRelations
  import DispatcherService

  /** One round of the recovery loop. */
  function RecoverOne(db: Db, a: ActionId, now: Time): Db
    requires a in db.compExecutions && a in db.compensations && a in db.actions
  {
    var locks := match ResourceLocks.LockOf(db, a)
                 case None => db.locks
                 case Some(lock) => db.locks[db.actions[a].resource := lock.(frozen := true, expires := now)];
    db.(compExecutions := db.compExecutions[a := db.compExecutions[a].(status := CompUnknown, lease := None)],
        compensations := db.compensations[a := db.compensations[a].(status := CompUnknown,
                                                                    version := db.compensations[a].version + 1)],
        locks := locks)
  }

  lemma LapseOneMore(compensations: map<ActionId, Compensation>, done: set<ActionId>, a: ActionId)
    requires a in compensations && a !in done
    ensures var lapsed := Compensations.LapsedCompensations(compensations, done);
            && a in lapsed
            && Compensations.LapsedCompensations(compensations, done + {a})
               == lapsed[a := lapsed[a].(status := CompUnknown, version := lapsed[a].version + 1)]
  {
  }

  lemma RecoveredStayOwned(db: Db, done: set<ActionId>, now: Time)
    requires LocksAreOwned(db)
    ensures var db' := Compensations.RecoverSet(db, done, now);
            && LocksAreOwned(db') && db'.actions == db.actions
            && db'.compExecutions.Keys == db.compExecutions.Keys && db'.compensations.Keys == db.compensations.Keys
  {
  }

  lemma RecoverOneMore(db: Db, done: set<ActionId>, a: ActionId, now: Time)
    requires LocksAreOwned(db) && a in db.compExecutions && a in db.compensations && a in db.actions && a !in done
    ensures var mid := Compensations.RecoverSet(db, done, now);
            && a in mid.compExecutions && a in mid.compensations && a in mid.actions
            && RecoverOne(mid, a, now) == Compensations.RecoverSet(db, done + {a}, now)
  {
    hide ActionDispatcher.FrozenLocks, ActionDispatcher.LapsedExecutions, Compensations.LapsedCompensations;
    RecoveredStayOwned(db, done, now);
    DispatcherService.FreezeOneMore(db, done, a, now);
    DispatcherService.LapseOneMore(db.compExecutions, done, a, CompUnknown);
    LapseOneMore(db.compensations, done, a);
  }

  lemma RecoverNone(db: Db, now: Time)
    ensures Compensations.RecoverSet(db, {}, now) == db
  {
    var same := Compensations.RecoverSet(db, {}, now);
    assert same.compExecutions == db.compExecutions && same.compensations == db.compensations && same.locks == db.locks;
  }

  lemma CompensationTables(db: Db)
    requires Inv(db)
    ensures forall a :: a in db.compExecutions ==> a in db.compensations && a in db.actions
    ensures db.compensations.Keys <= db.actions.Keys
  {
    hide Inv, LockOk, ExecutionOk, LockStateOk, VerificationOk;
    TableFacts(db);
    forall a | a in db.compExecutions ensures a in db.compensations {
      CaseFacts(db, a);
    }
  }

  /** The invariant after a request, whatever it answers. */
  lemma Advanced(cfg: Settings, db: Db, s: CompensationSteps.CompensationStep)
    requires Inv(db)
    ensures Inv(After(db, CompensationSteps.Apply(cfg, db, s)))
  {
    hide Inv, CompensationSteps.Apply, StepRelations.Grows, StepRelations.ActionTablesOnly,
      StepRelations.LeavesOutcomes, Exclusive;
    CompensationSteps.StepAdvances(cfg, db, s);
  }

  class CompensationService {
    const db: Database
    const cfg: Settings

    constructor (db: Database, cfg: Settings)
      ensures this.db == db && this.cfg == cfg
    {
      this.db, this.cfg := db, cfg;
    }

    /** `holder` is the answer of `get_by_key`. */
    method Create(a: ActionId, parameters: nat, key: nat, holder: Option<ActionId>, actor: nat, expires: Time)
      returns (reply: Reply)
      requires Inv(db.State())
      modifies db
      ensures var o := Compensations.Create(old(db.State()), a, parameters, key, holder, actor, expires);
              reply == Answer(o) && db.State() == After(old(db.State()), o) && Inv(db.State())
      ensures reply.Done? ==>
                && a !in old(db.compensations) && a in db.compensations
                && var c := db.compensations[a];
                   && c.status.CompPending? && c.version == 1
                   && c.key == key && c.requestedBy == actor && c.expires == expires
    {
      hide Inv;
      Advanced(cfg, db.State(), CompensationSteps.Request(a, parameters, key, holder, actor, expires));
      if a !in db.actions { return Error(ActionNotFound); }
      var action := db.actions[a];
      if !action.status.VerificationFailed? || a !in db.verifications || !db.verifications[a].compensationRequired
         || action.rollback.None?
      {
        return Error(CompensationNotRequired);
      }
      if action.rollback.value != action.capability { return Error(CompensationCapabilityUnsupported); }
      if parameters != action.parameters { return Error(CompensationParametersInvalid); }
      if holder.Some? {
        if !Compensations.HasKey(db.State(), holder.value, key) { return Error(NotOffered); }
        if holder.value != a { return Error(CompensationIdempotencyConflict); }
        return Repeated;
      }
      if a in db.compensations { return Error(CompensationAlreadyExists); }
      db.compensations := db.compensations[a := Compensation(CompPending, key, actor, expires, 1)];
      return Done;
    }

    /** `allowed` is the answer of `revalidate_snapshot`. */
    method Decide(a: ActionId, approve: bool, expectedVersion: nat, actor: Option<nat>, allowed: bool,
                  run: Option<RunId>, now: Time) returns (reply: Reply)
      requires Inv(db.State())
      modifies db
      ensures var o := Compensations.Decide(old(db.State()), a, approve, expectedVersion, actor, allowed, run, now);
              reply == Answer(o) && db.State() == After(old(db.State()), o) && Inv(db.State())
      ensures reply.Done? ==>
                Effects.DecisionSettled(old(db.State()), db.State(), a, approve, actor, allowed, now)
    {
      hide Effects.DecisionSettled, Inv, InvestigationHitl.ResolveSubject;
      Effects.DecisionSettles(db.State(), a, approve, expectedVersion, actor, allowed, run, now);
      var before := db.State();
      Advanced(cfg, before, CompensationSteps.Decide(a, approve, expectedVersion, actor, allowed, run, now));
      if a !in db.compensations { return Error(CompensationNotFound); }
      var c := db.compensations[a];
      if c.version != expectedVersion { return Error(CompensationVersionConflict); }
      if !c.status.CompPending? { return Error(CompensationAlreadyResolved); }
      if c.expires <= now {
        c := c.(status := CompRejected);
      } else if approve {
        if actor == Some(c.requestedBy) { return Error(SelfApprovalForbidden); }
        if !allowed { return Error(PolicyRevalidationFailed); }
        c := c.(status := CompApproved);
      } else {
        c := c.(status := CompRejected);
      }
      db.compensations := db.compensations[a := c.(version := c.version + 1)];
      var hitl := new RunServices.InvestigationHITLService(db);
      reply := hitl.ResolveSubject(Subject(CompensationSubject, a), run);
      if reply.Error? { db.Rollback(before); }
    }

    method RecoverRow(a: ActionId, now: Time)
      requires LocksAreOwned(db.State()) && a in db.compExecutions && a in db.compensations && a in db.actions
      modifies db
      ensures db.State() == RecoverOne(old(db.State()), a, now)
    {
      var locks := new ResourceLockService(db, cfg);
      var found := locks.GetForAction(a);
      db.compExecutions := db.compExecutions[a := db.compExecutions[a].(status := CompUnknown, lease := None)];
      db.compensations := db.compensations[a := db.compensations[a].(status := CompUnknown,
                                                                     version := db.compensations[a].version + 1)];
      if found.Some? {
        db.locks := db.locks[found.value := db.locks[found.value].(frozen := true, expires := now)];
      }
    }

    /** `recover_expired`: the rows may come in any order. */
    method RecoverExpired(now: Time)
      requires Inv(db.State())
      modifies db
      ensures db.State() == Compensations.RecoverExpired(old(db.State()), now)
      ensures Inv(db.State())
    {
      hide Inv, Compensations.RecoverSet, RecoverOne, LocksAreOwned, ActionDispatcher.Expired;
      ghost var before := db.State();
      ghost var lapsed := Compensations.ExpiredRunning(before, now);
      var todo := set a | a in db.compExecutions && db.compExecutions[a].status.CompRunning?
                          && ActionDispatcher.Expired(db.compExecutions[a], now);
      Advanced(cfg, before, CompensationSteps.Recover(now));
      LocksOfInv(before);
      CompensationTables(before);
      RecoverNone(before, now);
      assert lapsed - todo == {};
      while todo != {}
        invariant todo <= lapsed && lapsed <= before.compExecutions.Keys
        invariant db.State() == Compensations.RecoverSet(before, lapsed - todo, now)
        decreases |todo|
      {
        var a :| a in todo;
        RecoveredStayOwned(before, lapsed - todo, now);
        RecoverOneMore(before, lapsed - todo, a, now);
        assert lapsed - todo + {a} == lapsed - (todo - {a});
        RecoverRow(a, now);
        todo := todo - {a};
      }
      assert lapsed - {} == lapsed;
    }

    method Dispatch(a: ActionId, expectedVersion: nat, selected: Option<RunnerId>, now: Time) returns (reply: Reply)
      requires Inv(db.State())
      modifies db
      ensures var o := Compensations.Dispatch(old(db.State()), a, expectedVersion, selected, now);
              reply == Answer(o) && db.State() == After(old(db.State()), o) && Inv(db.State())
      ensures reply.Done? ==> selected.Some? && Effects.CompensationDispatchedTo(db.State(), a, selected.value)
    {
      hide Effects.CompensationDispatchedTo, Inv, Compensations.RecoverExpired, LocksAreOwned,
           Compensations.DispatchRow;
      Effects.CompensationDispatchStarts(db.State(), a, expectedVersion, selected, now);
      var before := db.State();
      Advanced(cfg, before, CompensationSteps.Dispatch(a, expectedVersion, selected, now));
      RecoverExpired(now);
      CompensationTables(db.State());
      LocksOfInv(db.State());
      ReplaysChangeNothing(db.State(), a, expectedVersion, selected, now);
      reply := DispatchRow(a, expectedVersion, selected, now);
      if reply.Error? { db.Rollback(before); }
    }

    method DispatchRow(a: ActionId, expectedVersion: nat, selected: Option<RunnerId>, now: Time) returns (reply: Reply)
      requires LocksAreOwned(db.State())
      modifies db
      ensures var o := Compensations.DispatchRow(old(db.State()), a, expectedVersion, selected, now);
              reply == Answer(o) && db.State() == After(old(db.State()), o)
    {
      hide LocksAreOwned, ResourceLocks.LockOf, Compensations.Dispatched;
      if a !in db.compensations { return Error(CompensationNotFound); }
      var c := db.compensations[a];
      if c.version != expectedVersion { return Error(CompensationVersionConflict); }
      if a in db.compExecutions { return Repeated; }
      if !c.status.CompApproved? { return Error(CompensationNotApproved); }
      if c.expires <= now { return Error(CompensationApprovalExpired); }
      var locks := new ResourceLockService(db, cfg);
      var found := locks.GetForAction(a);
      if found.None? || !db.locks[found.value].frozen { return Error(LockInvalid); }
      if selected.None? { return Error(RunnerUnavailable); }
      CreateExecution(a, selected.value, db.locks[found.value].token);
      return Done;
    }

    method CreateExecution(a: ActionId, runner: RunnerId, token: Token)
      requires a in db.compensations && a in db.actions
      modifies db
      ensures db.State() == Compensations.Dispatched(old(db.State()), a, runner, token)
    {
      var c := db.compensations[a];
      db.compExecutions := db.compExecutions[a := Execution(runner, CompDispatching, ActionDispatcher.EXECUTION_TOKEN,
                                                            token, None, None)];
      db.compensations := db.compensations[a := c.(status := CompDispatching, version := c.version + 1)];
      db.actions := db.actions[a := db.actions[a].(status := Compensating, version := db.actions[a].version + 1)];
    }

    method Claim(runner: RunnerId, candidate: Option<ActionId>, now: Time) returns (reply: Reply)
      requires Inv(db.State())
      modifies db
      ensures var o := Compensations.Claim(cfg, old(db.State()), runner, candidate, now);
              reply == Answer(o) && db.State() == After(old(db.State()), o) && Inv(db.State())
      ensures reply.Done? ==>
                candidate.Some? && Effects.CompensationStarted(cfg, db.State(), candidate.value, runner, now)
    {
      hide Effects.CompensationStarted, Inv, Compensations.RecoverExpired, LocksAreOwned, Compensations.ClaimRow;
      Effects.CompensationClaimStarts(cfg, db.State(), runner, candidate, now);
      var before := db.State();
      Advanced(cfg, before, CompensationSteps.Claim(runner, candidate, now));
      RecoverExpired(now);
      if candidate.None? { return Nothing; }
      LocksOfInv(db.State());
      NeverRepeated(cfg, db.State(), runner, candidate.value, now);
      CompensationTables(db.State());
      reply := ClaimRow(runner, candidate.value, now);
      if reply.Error? { db.Rollback(before); }
    }

    method ClaimRow(runner: RunnerId, a: ActionId, now: Time) returns (reply: Reply)
      requires a in db.compExecutions ==> a in db.compensations
      requires LocksAreOwned(db.State())
      modifies db
      ensures var o := Compensations.ClaimRow(cfg, old(db.State()), runner, a, now);
              reply == Answer(o) && db.State() == After(old(db.State()), o)
    {
      hide LocksAreOwned, ResourceLocks.LockOf;
      if a !in db.compExecutions || db.compExecutions[a].runner != runner
         || !db.compExecutions[a].status.CompDispatching?
      {
        return Error(NotOffered);
      }
      var locks := new ResourceLockService(db, cfg);
      var found := locks.GetForAction(a);
      if found.None? || db.locks[found.value].token != db.compExecutions[a].token { return Error(LockInvalid); }
      db.compExecutions := db.compExecutions[a := db.compExecutions[a].(status := CompRunning,
                                                                        lease := Some(now + cfg.executionLease))];
      db.compensations := db.compensations[a := db.compensations[a].(status := CompRunning,
                                                                     version := db.compensations[a].version + 1)];
      db.locks := db.locks[found.value := db.locks[found.value].(expires := now + cfg.lockLease)];
      return Done;
    }

    /** `_owned`. */
    method Owned(a: ActionId, runner: RunnerId, executionToken: Token, token: Token, now: Time)
      returns (error: Option<Code>, r: ResourceId)
      requires LocksAreOwned(db.State())
      ensures error == Compensations.OwnershipError(db.State(), a, runner, executionToken, token, now)
      ensures error.None? ==> && a in db.actions && a in db.compExecutions && a in db.compensations
                              && r == db.actions[a].resource && r in db.locks
                              && ResourceLocks.LockOf(db.State(), a) == Some(db.locks[r])
    {
      hide LocksAreOwned;
      r := 0;
      if a !in db.compExecutions { return Some(ExecutionNotFound), r; }
      var e := db.compExecutions[a];
      if e.runner != runner || e.executionToken != executionToken || e.token != token {
        return Some(ExecutionFenced), r;
      }
      if !e.status.CompRunning? || e.lease.None? || e.lease.value <= now { return Some(ActionNotRunning), r; }
      if a !in db.compensations { return Some(CompensationNotFound), r; }
      var locks := new ResourceLockService(db, cfg);
      var found := locks.GetForAction(a);
      if found.None? || db.locks[found.value].token != token { return Some(LockInvalid), r; }
      return None, found.value;
    }

    method Renew(a: ActionId, runner: RunnerId, executionToken: Token, token: Token, now: Time) returns (reply: Reply)
      requires Inv(db.State())
      modifies db
      ensures var o := Compensations.Renew(cfg, old(db.State()), a, runner, executionToken, token, now);
              reply == Answer(o) && db.State() == After(old(db.State()), o) && Inv(db.State())
      ensures reply.Done? ==> Effects.CompensationStarted(cfg, db.State(), a, runner, now)
    {
      hide Effects.CompensationStarted, Inv, Compensations.OwnershipError, LocksAreOwned, ResourceLocks.LockOf;
      Effects.CompensationRenewalExtends(cfg, db.State(), a, runner, executionToken, token, now);
      Advanced(cfg, db.State(), CompensationSteps.Renew(a, runner, executionToken, token, now));
      LocksOfInv(db.State());
      var error, r := Owned(a, runner, executionToken, token, now);
      if error.Some? { return Error(error.value); }
      db.compExecutions := db.compExecutions[a := db.compExecutions[a].(lease := Some(now + cfg.executionLease))];
      db.locks := db.locks[r := db.locks[r].(expires := now + cfg.lockLease)];
      return Done;
    }

    method Complete(a: ActionId, runner: RunnerId, completion: CompletionId, executionToken: Token, token: Token,
                    succeeded: bool, now: Time) returns (reply: Reply)
      requires Inv(db.State())
      modifies db
      ensures var o :=
                Compensations.Complete(old(db.State()), a, runner, completion, executionToken, token, succeeded, now);
              reply == Answer(o) && db.State() == After(old(db.State()), o) && Inv(db.State())
      ensures reply.Done? ==>
                Effects.CompensationSettled(old(db.State()), db.State(), a, completion, succeeded)
    {
      hide Effects.CompensationSettled, Inv, Compensations.OwnershipError, LocksAreOwned, ResourceLocks.LockOf,
           Compensations.Completed;
      Effects.CompensationSettles(db.State(), a, runner, completion, executionToken, token, succeeded, now);
      Advanced(cfg, db.State(),
        CompensationSteps.Complete(a, runner, completion, executionToken, token, succeeded, now));
      LocksOfInv(db.State());
      if a !in db.compExecutions { return Error(ExecutionNotFound); }
      if db.compExecutions[a].completion == Some(completion) { return Repeated; }
      var error, r := Owned(a, runner, executionToken, token, now);
      if error.Some? { return Error(error.value); }
      Settle(a, r, completion, succeeded, now);
      return Done;
    }

    method Settle(a: ActionId, r: ResourceId, completion: CompletionId, succeeded: bool, now: Time)
      requires a in db.compExecutions && a in db.compensations && a in db.actions
      requires r == db.actions[a].resource && r in db.locks
      modifies db
      ensures db.State() == Compensations.Completed(old(db.State()), a, old(db.locks[r]), completion, succeeded, now)
    {
      var lock := db.locks[r];
      var c := db.compensations[a];
      var action := db.actions[a];
      db.compExecutions := db.compExecutions[a := db.compExecutions[a].(
        status := if succeeded then CompSucceeded else CompFailed, completion := Some(completion), lease := None)];
      if succeeded {
        lock := lock.(frozen := false, released := true);
        c := c.(status := CompSucceeded);
        action := action.(status := Compensated);
      } else {
        lock := lock.(frozen := true);
        c := c.(status := CompEscalated);
        action := action.(status := Escalated);
      }
      db.locks := db.locks[r := lock.(expires := now)];
      db.compensations := db.compensations[a := c.(version := c.version + 1)];
      db.actions := db.actions[a := action.(version := action.version + 1)];
    }

    method Escalate(a: ActionId, expectedVersion: nat) returns (reply: Reply)
      requires Inv(db.State())
      modifies db
      ensures var o := Compensations.Escalate(old(db.State()), a, expectedVersion);
              reply == Answer(o) && db.State() == After(old(db.State()), o) && Inv(db.State())
      ensures reply.Done? ==> Effects.CompensationIs(db.State(), a, CompEscalated, Escalated)
    {
      hide Effects.CompensationIs, Inv;
      Effects.EscalationSettles(db.State(), a, expectedVersion);
      Advanced(cfg, db.State(), CompensationSteps.Escalate(a, expectedVersion));
      if a !in db.compensations { return Error(CompensationNotFound); }
      var c := db.compensations[a];
      if c.version != expectedVersion { return Error(CompensationVersionConflict); }
      if !(c.status.CompApproved? || c.status.CompRejected? || c.status.CompFailed? || c.status.CompUnknown?) {
        return Error(CompensationNotEscalatable);
      }
      db.compensations := db.compensations[a := c.(status := CompEscalated, version := c.version + 1)];
      if a in db.actions {
        db.actions := db.actions[a := db.actions[a].(status := Escalated, version := db.actions[a].version + 1)];
      }
      return Done;
    }
  }

  lemma ReplaysChangeNothing(db: Db, a: ActionId, version: nat, selected: Option<RunnerId>, now: Time)
    ensures var o := Compensations.DispatchRow(db, a, version, selected, now);
            (o.Replayed? ==> o.db == db) && !o.Idle?
  {
  }

  lemma NeverRepeated(cfg: Settings, db: Db, runner: RunnerId, a: ActionId, now: Time)
    ensures var o := Compensations.ClaimRow(cfg, db, runner, a, now); o.Accepted? || o.Refused?
  {
  }
}
