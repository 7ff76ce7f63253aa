/** Resource exclusion over whole runs. */
module Exclusion {
  import opened Common
  import opened Records
  import opened ActionInvariants
  import opened ActionPreservation
  import opened StepRelations
  import opened TaskPreservation
  import opened System
  import ActionSteps
  import ResourceLocks
  import RunInvariants
  import CompensationSteps
  import TaskSteps
  import RunSteps

  /** The step acquires, outside dispatch, the expired lock of an action that still runs. */
  predicate TakesOver(db: Db, s: Step) {
    s.OnAction? && ActionSteps.TakesOver(db, s.action)
  }

  /** Every action that may have changed its resource owns the resource's unreleased lock, with the token of
      its execution. */
  ghost predicate AllHold(db: Db) {
    forall a :: a in db.actions && InDoubt(db.actions[a].status) ==> Holds(a, CaseOf(db, a))
  }

  lemma ExclusiveHold(db: Db)
    requires Inv(db) && Exclusive(db)
    ensures AllHold(db)
  {
    hide LockOk, VerificationOk, CompensationOk;
    forall a | a in db.actions && InDoubt(db.actions[a].status) ensures Holds(a, CaseOf(db, a)) {
      assert CaseOk(a, CaseOf(db, a)) && ExclusiveCase(a, CaseOf(db, a));
    }
  }

  /** Two holders of one resource are the same action. */
  lemma HoldersAreUnique(db: Db, a: ActionId, b: ActionId)
    requires AllHold(db) && a in db.actions && b in db.actions
    requires InDoubt(db.actions[a].status) && InDoubt(db.actions[b].status)
    requires db.actions[a].resource == db.actions[b].resource
    ensures a == b
  {
    assert Holds(a, CaseOf(db, a)) && Holds(b, CaseOf(db, b));
  }

  lemma StepKeepsExclusion(cfg: Settings, db: Db, s: Step)
    requires Inv(db) && Exclusive(db) && LeasesCover(cfg) && !TakesOver(db, s)
    ensures Exclusive(Next(cfg, db, s))
  {
    hide Inv, Exclusive, Progresses, Keeps, CompensationSteps.ActionsAdvance, ActionTablesOnly, LeasesCover,
      ActionSteps.TakesOver, ActionSteps.Apply, CompensationSteps.Apply, TaskSteps.Apply, RunSteps.Apply, Grows;
    match s
    case OnAction(action) => ActionSteps.StepAdvances(cfg, db, action);
    case OnCompensation(comp) => CompensationSteps.StepAdvances(cfg, db, comp); AdvanceFacts(db, Next(cfg, db, s));
    case OnTask(task) => TaskSteps.StepKeeps(cfg, db, task); KeepsGrow(db, Next(cfg, db, s));
    case OnRun(run) => RunSteps.StepKeeps(cfg, db, run); KeepsGrow(db, Next(cfg, db, s));
  }

  /** After the internal acquisition the running action no longer owns the lock it runs under. */
  lemma TakeoverDispossesses(cfg: Settings, db: Db, s: Step)
    requires Inv(db) && TakesOver(db, s)
    ensures !AllHold(Next(cfg, db, s))
  {
    hide Inv, CaseOk, LockOk, ResourceLocks.Acquire;
    var a, db' := s.action.a, Next(cfg, db, s);
    var b := CaseOf(db, a).lock.value.owner;
    CaseFacts(db, a);
    OwnerShares(db, a);
    ActionSteps.TakeoverIsAccepted(cfg, db, s.action);
    ActionSteps.AcquiredOwns(cfg, db, a, s.action.authorised, s.action.now);
    assert !Holds(b, CaseOf(db', b));
  }

  lemma OwnerShares(db: Db, a: ActionId)
    requires a in db.actions && db.actions[a].resource in db.locks && LockOk(db, db.actions[a].resource)
    ensures var b := db.locks[db.actions[a].resource].owner;
            b in db.actions && db.actions[b].resource == db.actions[a].resource
  {
  }

  /** From any exclusive state, a step keeps every holder's lock if and only if it does not take a lock over
      from a running action. */
  lemma ExclusionIsKeptExactly(cfg: Settings, db: Db, s: Step)
    requires Inv(db) && Exclusive(db) && LeasesCover(cfg)
    ensures AllHold(Next(cfg, db, s)) <==> !TakesOver(db, s)
  {
    hide Inv, Exclusive, LeasesCover, TakesOver, AllHold, Next, Grows;
    if TakesOver(db, s) {
      TakeoverDispossesses(cfg, db, s);
    } else {
      StepKeepsExclusion(cfg, db, s);
      StepKeeps(cfg, db, s);
      ExclusiveHold(Next(cfg, db, s));
    }
  }

  lemma {:induction false} ReachableExclusion(cfg: Settings, steps: seq<Step>)
    requires LeasesCover(cfg)
    requires forall k :: 0 <= k < |steps| ==> !TakesOver(At(cfg, steps, k), steps[k])
    ensures Exclusive(State(cfg, steps))
  {
    hide Inv, Exclusive, LeasesCover, TakesOver, Next, RunInvariants.RunsOk;
    EmptyIsRight();
    if steps != [] {
      var n := |steps| - 1;
      forall k | 0 <= k < n ensures !TakesOver(At(cfg, steps[..n], k), steps[..n][k]) {
        assert steps[..n][..k] == steps[..k] && !TakesOver(At(cfg, steps, k), steps[k]);
      }
      ReachableExclusion(cfg, steps[..n]);
      Reachable(cfg, steps[..n]);
      assert !TakesOver(At(cfg, steps, n), steps[n]);
      StepKeepsExclusion(cfg, State(cfg, steps[..n]), steps[n]);
    }
  }

  /** Resource exclusion: with lock leases that cover execution leases and no takeover outside dispatch, at
      every moment at most one action of a resource is running, verifying, failed in verification, unknown,
      compensating or escalated; it owns the resource's unreleased lock with its execution's token. */
  lemma ResourceExclusion(cfg: Settings, steps: seq<Step>, a: ActionId, b: ActionId)
    requires LeasesCover(cfg)
    requires forall k :: 0 <= k < |steps| ==> !TakesOver(At(cfg, steps, k), steps[k])
    requires var db := State(cfg, steps);
             && a in db.actions && b in db.actions && db.actions[a].resource == db.actions[b].resource
             && InDoubt(db.actions[a].status) && InDoubt(db.actions[b].status)
    ensures a == b
    ensures var db := State(cfg, steps); var r := db.actions[a].resource;
            && r in db.locks && a in db.executions && db.locks[r].owner == a && !db.locks[r].released
            && db.locks[r].token == db.executions[a].token
  {
    hide Inv, Exclusive, LeasesCover, TakesOver, Next, State, RunInvariants.RunsOk;
    var db := State(cfg, steps);
    ReachableExclusion(cfg, steps);
    Reachable(cfg, steps);
    ExclusiveHold(db);
    HoldersAreUnique(db, a, b);
    assert Holds(a, CaseOf(db, a));
  }

  /** In particular when locks are only acquired by dispatch. */
  lemma DispatchOnlyExcludes(cfg: Settings, steps: seq<Step>)
    requires LeasesCover(cfg) && forall k :: 0 <= k < |steps| ==> !(steps[k].OnAction? && steps[k].action.AcquireLock?)
    ensures AllHold(State(cfg, steps))
  {
    hide Inv, Exclusive, LeasesCover, Next, State, AllHold, RunInvariants.RunsOk;
    forall k | 0 <= k < |steps| ensures !TakesOver(At(cfg, steps, k), steps[k]) {
      assert !(steps[k].OnAction? && steps[k].action.AcquireLock?);
    }
    ReachableExclusion(cfg, steps);
    Reachable(cfg, steps);
    ExclusiveHold(State(cfg, steps));
  }
}
