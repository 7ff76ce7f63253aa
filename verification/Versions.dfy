/** Optimistic concurrency over whole runs: a request made on an outdated version is refused. */
module Versions {
  import opened Common
  import opened Records
  import opened ActionInvariants
  import opened System
  import ActionDispatcher
  import ActionSteps
  import Compensations
  import ResourceLocks
  import CompensationSteps
  import RunHistory
  import RunInvariants
  import RunSteps
  import StepRelations
  import Investigations
  import InvestigationHitl

  /** The row and the version a request expects. */
  datatype Expectation =
    | OfAction(a: ActionId, version: nat)
    | OfCompensation(a: ActionId, version: nat)
    | OfRun(r: RunId, version: nat)

  function Expects(s: Step): Option<Expectation> {
    match s
    case OnAction(CancelAction(a, version, _)) => Some(OfAction(a, version))
    case OnAction(Reconcile(a, version, _, _)) => Some(OfAction(a, version))
    case OnCompensation(Decide(a, _, version, _, _, _, _)) => Some(OfCompensation(a, version))
    case OnCompensation(Dispatch(a, version, _, _)) => Some(OfCompensation(a, version))
    case OnCompensation(Escalate(a, version)) => Some(OfCompensation(a, version))
    case OnRun(Write(r, _, version, _, _)) => Some(OfRun(r, version))
    case OnRun(StartWait(r, _, _, version, _)) => Some(OfRun(r, version))
    case OnRun(Transition(r, version, _)) => Some(OfRun(r, version))
    case _ => None
  }

  /** The row has the expected version. */
  predicate Current(db: Db, e: Expectation) {
    match e
    case OfAction(a, version) => a in db.actions && db.actions[a].version == version
    case OfCompensation(a, version) => a in db.compensations && db.compensations[a].version == version
    case OfRun(r, version) => r in db.runs && db.runs[r].version == version
  }

  /** The row is another one; a run's lease, which is renewed without a new version, does not count. */
  predicate Changed(db: Db, db': Db, e: Expectation) {
    match e
    case OfAction(a, _) => a in db.actions && a in db'.actions && db.actions[a] != db'.actions[a]
    case OfCompensation(a, _) =>
      a in db.compensations && a in db'.compensations && db.compensations[a] != db'.compensations[a]
    case OfRun(r, _) =>
      r in db.runs && r in db'.runs && db'.runs[r] != db.runs[r].(lease := db'.runs[r].lease)
  }

  lemma ChangeIsSeen(cfg: Settings, steps: seq<Step>, i: nat, j: nat, e: Expectation)
    requires i <= j <= |steps| && Current(At(cfg, steps, i), e) && Changed(At(cfg, steps, i), At(cfg, steps, j), e)
    ensures !Current(At(cfg, steps, j), e)
  {
    hide Inv, State, RunInvariants.RunsOk, RunInvariants.Linked, StepRelations.LocksGrow, Reaches, ExecutionGrows;
    var db, db' := At(cfg, steps, i), At(cfg, steps, j);
    match e
    case OfRun(r, _) => RunHistory.RunGrowsAlong(cfg, steps, i, j, r);
    case _ =>
      GrowsAlong(cfg, steps, i, j);
      Reachable(cfg, steps[..i]);
      TableFacts(db);
      assert CaseGrows(CaseOf(db, e.a), CaseOf(db', e.a));
  }

  lemma OutdatedIsRefused(cfg: Settings, db: Db, s: Step, e: Expectation)
    requires Expects(s) == Some(e) && !Current(db, e)
    ensures !Apply(cfg, db, s).Accepted?
  {
    hide Investigations.CheckpointError, Investigations.CancelWaits, ActionDispatcher.SetAction, ResourceLocks.LockOf,
      InvestigationHitl.ResolveSubject, Compensations.SetCompensation, Compensations.RecoverExpired,
      Compensations.DispatchRow;
    if s.OnCompensation? && s.comp.Dispatch? {
      OutdatedDispatch(db, s.comp.a, s.comp.version, s.comp.selected, s.comp.now);
    }
  }

  /** A dispatch recovers expired executions first; a compensation it recovers is no longer approved. */
  lemma OutdatedDispatch(db: Db, a: ActionId, version: nat, selected: Option<RunnerId>, now: Time)
    requires !Current(db, OfCompensation(a, version))
    ensures !Compensations.Dispatch(db, a, version, selected, now).Accepted?
  {
    hide ResourceLocks.LockOf, Compensations.Dispatched, ActionDispatcher.FrozenLocks,
      ActionDispatcher.LapsedExecutions, ActionDispatcher.Expired;
  }

  /** A request that expects the version some earlier state had is never accepted once anything in the row of
      its action, compensation or run has changed since, the lease of a run aside. */
  lemma StaleVersionIsRefused(cfg: Settings, steps: seq<Step>, i: nat, j: nat)
    requires i <= j < |steps| && Expects(steps[j]).Some?
    requires Current(At(cfg, steps, i), Expects(steps[j]).value)
    requires Changed(At(cfg, steps, i), At(cfg, steps, j), Expects(steps[j]).value)
    ensures !Apply(cfg, At(cfg, steps, j), steps[j]).Accepted?
  {
    hide State, Apply, Expects, Current, Changed;
    ChangeIsSeen(cfg, steps, i, j, Expects(steps[j]).value);
    OutdatedIsRefused(cfg, At(cfg, steps, j), steps[j], Expects(steps[j]).value);
  }
}
