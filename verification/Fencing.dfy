/** Fencing tokens over whole runs, with no assumption about leases. */
module Fencing {
  import opened Common
  import opened Records
  import opened ActionInvariants
  import opened ActionPreservation
  import opened CaseSteps
  import opened StepRelations
  import opened System
  import ActionSteps
  import CompensationSteps
  import ActionDispatcher
  import Compensations
  import ResourceLocks
  import RunInvariants

  /** Token t of a resource has been given out. */
  predicate Issued(db: Db, r: ResourceId, t: Token) {
    r in db.grants && 1 <= t <= |db.grants[r]|
  }

  /** The resource's lock is held under token t. */
  predicate Live(db: Db, r: ResourceId, t: Token) {
    r in db.locks && db.locks[r].token == t && !db.locks[r].released
  }

  // ----- Tokens only go up ----------------------------------------------------------------------------

  lemma TokenIsCount(db: Db, r: ResourceId)
    requires Inv(db) && r in db.locks
    ensures r in db.grants && db.locks[r].token == |db.grants[r]|
    ensures db.grants[r][|db.grants[r]| - 1] == db.locks[r].owner
  {
    hide CaseOk;
    assert LockOk(db, r);
  }

  lemma GrowsLock(db: Db, db': Db, r: ResourceId)
    requires Grows(db, db') && r in db.locks
    ensures LockGrows(db, db', r)
  {
  }

  /** Whoever gets a resource anew, the same action included, gets it under a larger token; no token ever
      falls. */
  lemma AcquisitionRaisesToken(cfg: Settings, db: Db, s: Step, r: ResourceId)
    requires Inv(db) && r in db.locks
    ensures var db' := Next(cfg, db, s);
            && r in db'.locks && db.locks[r].token <= db'.locks[r].token
            && (db'.locks[r].owner != db.locks[r].owner || (db.locks[r].released && !db'.locks[r].released)
                ==> db.locks[r].token < db'.locks[r].token)
  {
    hide Inv, Grows, Next;
    StepKeeps(cfg, db, s);
    GrowsLock(db, Next(cfg, db, s), r);
    TokenIsCount(db, r);
    TokenIsCount(Next(cfg, db, s), r);
  }

  /** A token, once given out, belongs to one action for ever. */
  lemma TokenBelongsToOneAction(cfg: Settings, steps: seq<Step>, i: nat, j: nat, r: ResourceId, t: Token)
    requires i <= j <= |steps| && Issued(At(cfg, steps, i), r, t)
    ensures Issued(At(cfg, steps, j), r, t)
    ensures At(cfg, steps, j).grants[r][t - 1] == At(cfg, steps, i).grants[r][t - 1]
  {
    hide Inv, Grows, State, RunInvariants.RunsOk;
    GrowsAlong(cfg, steps, i, j);
    Reachable(cfg, steps[..i]);
    TableFacts(At(cfg, steps, i));
    GrowsLock(At(cfg, steps, i), At(cfg, steps, j), r);
  }

  /** No two executions on one resource ever carry the same token. */
  lemma ExecutionsHaveDistinctTokens(cfg: Settings, steps: seq<Step>, a: ActionId, b: ActionId)
    requires var db := State(cfg, steps);
             && a in db.executions && b in db.executions && a in db.actions && b in db.actions
             && db.actions[a].resource == db.actions[b].resource && db.executions[a].token == db.executions[b].token
    ensures a == b
  {
    hide Inv, State, LockOk, VerificationOk, CompensationOk, LockStateOk, RunInvariants.RunsOk;
    Reachable(cfg, steps);
    CaseFacts(State(cfg, steps), a);
    CaseFacts(State(cfg, steps), b);
  }

  // ----- Dead tokens stay dead -------------------------------------------------------------------------

  lemma DeadStaysDeadInGrowth(db: Db, db': Db, r: ResourceId, t: Token)
    requires Inv(db) && Inv(db') && Grows(db, db') && Issued(db, r, t) && !Live(db, r, t)
    ensures Issued(db', r, t) && !Live(db', r, t)
  {
    hide Inv, Grows;
    TableFacts(db);
    GrowsLock(db, db', r);
    TokenIsCount(db, r);
    TokenIsCount(db', r);
  }

  /** A superseded or released token is never live again. */
  lemma DeadStaysDead(cfg: Settings, steps: seq<Step>, i: nat, j: nat, r: ResourceId, t: Token)
    requires i <= j <= |steps| && Issued(At(cfg, steps, i), r, t) && !Live(At(cfg, steps, i), r, t)
    ensures !Live(At(cfg, steps, j), r, t)
  {
    hide Inv, Grows, State, RunInvariants.RunsOk, Live, Issued;
    GrowsAlong(cfg, steps, i, j);
    Reachable(cfg, steps[..i]);
    Reachable(cfg, steps[..j]);
    DeadStaysDeadInGrowth(At(cfg, steps, i), At(cfg, steps, j), r, t);
  }

  // ----- Only live tokens are accepted --------------------------------------------------------------------

  /** A request that carries a resource token, for an action or for its compensation. A claim carries the
      token of the execution it is about. */
  datatype Bearer = Bearer(a: ActionId, token: Token)

  function Carries(db: Db, s: Step): Option<Bearer> {
    match s
    case OnAction(RenewLock(a, token, _)) => Some(Bearer(a, token))
    case OnAction(ReleaseLock(a, token, _)) => Some(Bearer(a, token))
    case OnAction(Claim(_, Some(a), _)) =>
      if a in db.executions then Some(Bearer(a, db.executions[a].token)) else None
    case OnAction(Renew(a, _, _, token, _)) => Some(Bearer(a, token))
    case OnAction(Complete(a, _, _, _, token, _, _, _)) => Some(Bearer(a, token))
    case OnCompensation(Claim(_, Some(a), _)) =>
      if a in db.compExecutions then Some(Bearer(a, db.compExecutions[a].token)) else None
    case OnCompensation(Renew(a, _, _, token, _)) => Some(Bearer(a, token))
    case OnCompensation(Complete(a, _, _, _, token, _, _)) => Some(Bearer(a, token))
    case _ => None
  }

  lemma FoundLockIsLive(db: Db, a: ActionId, token: Token)
    requires ResourceLocks.LockOf(db, a).Some? && ResourceLocks.LockOf(db, a).value.token == token
    ensures a in db.actions && Live(db, db.actions[a].resource, token)
    ensures db.locks[db.actions[a].resource].owner == a
  {
  }

  lemma RecoveredLockWasFound(db: Db, a: ActionId, now: Time)
    requires ResourceLocks.LockOf(ActionDispatcher.RecoverExpired(db, now), a).Some?
    ensures ResourceLocks.LockOf(db, a).Some?
    ensures ResourceLocks.LockOf(db, a).value.token
      == ResourceLocks.LockOf(ActionDispatcher.RecoverExpired(db, now), a).value.token
  {
  }

  lemma CompRecoveredLockWasFound(db: Db, a: ActionId, now: Time)
    requires ResourceLocks.LockOf(Compensations.RecoverExpired(db, now), a).Some?
    ensures ResourceLocks.LockOf(db, a).Some?
    ensures ResourceLocks.LockOf(db, a).value.token
      == ResourceLocks.LockOf(Compensations.RecoverExpired(db, now), a).value.token
  {
  }

  lemma ClaimFoundLock(cfg: Settings, db: Db, runner: RunnerId, a: ActionId, now: Time)
    requires ActionDispatcher.Claim(cfg, db, runner, Some(a), now).Accepted?
    ensures a in db.executions && ResourceLocks.LockOf(db, a).Some?
    ensures ResourceLocks.LockOf(db, a).value.token == db.executions[a].token
  {
    hide ResourceLocks.LockOf;
    RecoveredLockWasFound(db, a, now);
  }

  lemma CompClaimFoundLock(cfg: Settings, db: Db, runner: RunnerId, a: ActionId, now: Time)
    requires Compensations.Claim(cfg, db, runner, Some(a), now).Accepted?
    ensures a in db.compExecutions && ResourceLocks.LockOf(db, a).Some?
    ensures ResourceLocks.LockOf(db, a).value.token == db.compExecutions[a].token
  {
    hide ResourceLocks.LockOf;
    CompRecoveredLockWasFound(db, a, now);
  }

  lemma ActionRequestFoundLock(cfg: Settings, db: Db, s: ActionSteps.ActionStep)
    requires Carries(db, OnAction(s)).Some? && ActionSteps.Apply(cfg, db, s).Accepted?
    ensures var b, lock := Carries(db, OnAction(s)).value, ResourceLocks.LockOf(db, Carries(db, OnAction(s)).value.a);
            lock.Some? && lock.value.token == b.token
  {
    hide ResourceLocks.LockOf, ResourceLocks.SetLock, ActionDispatcher.SetAction, ActionDispatcher.Claim;
    if s.Claim? { ClaimFoundLock(cfg, db, s.runner, s.candidate.value, s.now); }
  }

  lemma CompensationRequestFoundLock(cfg: Settings, db: Db, s: CompensationSteps.CompensationStep)
    requires Carries(db, OnCompensation(s)).Some? && CompensationSteps.Apply(cfg, db, s).Accepted?
    ensures var b, lock :=
              Carries(db, OnCompensation(s)).value, ResourceLocks.LockOf(db, Carries(db, OnCompensation(s)).value.a);
            lock.Some? && lock.value.token == b.token
  {
    hide ResourceLocks.LockOf, ResourceLocks.SetLock, ActionDispatcher.SetAction, Compensations.Claim;
    if s.Claim? { CompClaimFoundLock(cfg, db, s.runner, s.candidate.value, s.now); }
  }

  /** An accepted request carries the token under which its action holds the lock at that moment. */
  lemma AcceptedIsLive(cfg: Settings, db: Db, s: Step)
    requires Carries(db, s).Some? && Apply(cfg, db, s).Accepted?
    ensures var b := Carries(db, s).value;
            && b.a in db.actions && Live(db, db.actions[b.a].resource, b.token)
            && db.locks[db.actions[b.a].resource].owner == b.a
  {
    hide ResourceLocks.LockOf, Live, ActionSteps.Apply, CompensationSteps.Apply;
    if s.OnAction? {
      ActionRequestFoundLock(cfg, db, s.action);
    } else {
      CompensationRequestFoundLock(cfg, db, s.comp);
    }
    FoundLockIsLive(db, Carries(db, s).value.a, Carries(db, s).value.token);
  }

  /** Fencing: once a token of a resource is superseded or released, no later claim, renewal, release or
      completion carrying it is accepted, for actions and compensations alike. */
  lemma StaleTokenIsRefused(cfg: Settings, steps: seq<Step>, i: nat, j: nat, r: ResourceId, t: Token, a: ActionId)
    requires i <= j < |steps| && Issued(At(cfg, steps, i), r, t) && !Live(At(cfg, steps, i), r, t)
    requires Carries(At(cfg, steps, j), steps[j]) == Some(Bearer(a, t))
    requires a in At(cfg, steps, j).actions ==> At(cfg, steps, j).actions[a].resource == r
    ensures !Apply(cfg, At(cfg, steps, j), steps[j]).Accepted?
  {
    hide State, Live, Issued, Carries, Apply;
    DeadStaysDead(cfg, steps, i, j, r, t);
    if Apply(cfg, At(cfg, steps, j), steps[j]).Accepted? {
      AcceptedIsLive(cfg, At(cfg, steps, j), steps[j]);
      assert false;
    }
  }
}
