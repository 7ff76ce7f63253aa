/** The requests on compensations as steps of a run, and what each of them keeps. */
module CompensationSteps {
  import opened Common
  import opened Records
  import opened ActionInvariants
  import opened ActionPreservation
  import opened CompensationPreservation
  import opened RecoveryPreservation
  import opened StepRelations
  import opened CaseSteps
  import opened TaskPreservation
  import Compensations
  import InvestigationHitl

  datatype CompensationStep =
    | Request(a: ActionId, parameters: nat, key: nat, holder: Option<ActionId>, actor: nat, expires: Time)
    | Decide(a: ActionId, approve: bool, version: nat, decider: Option<nat>, allowed: bool, run: Option<RunId>,
      now: Time)
    | Dispatch(a: ActionId, version: nat, selected: Option<RunnerId>, now: Time)
    | Claim(runner: RunnerId, candidate: Option<ActionId>, now: Time)
    | Renew(a: ActionId, runner: RunnerId, executionToken: Token, token: Token, now: Time)
    | Complete(a: ActionId, runner: RunnerId, completion: CompletionId, executionToken: Token, token: Token,
               succeeded: bool, now: Time)
    | Escalate(a: ActionId, version: nat)
    | Recover(now: Time)

  function Apply(cfg: Settings, db: Db, s: CompensationStep): Outcome {
    match s
    case Request(a, parameters, key, holder, actor, expires) =>
      Compensations.Create(db, a, parameters, key, holder, actor, expires)
    case Decide(a, approve, version, decider, allowed, run, now) =>
      Compensations.Decide(db, a, approve, version, decider, allowed, run, now)
    case Dispatch(a, version, selected, now) => Compensations.Dispatch(db, a, version, selected, now)
    case Claim(runner, candidate, now) => Compensations.Claim(cfg, db, runner, candidate, now)
    case Renew(a, runner, x, token, now) => Compensations.Renew(cfg, db, a, runner, x, token, now)
    case Complete(a, runner, completion, x, token, succeeded, now) =>
      Compensations.Complete(db, a, runner, completion, x, token, succeeded, now)
    case Escalate(a, version) => Compensations.Escalate(db, a, version)
    case Recover(now) => Accepted(Compensations.RecoverExpired(db, now))
  }

  ghost predicate Kept(db: Db, db': Db) {
    Advances(db, db') && (Exclusive(db) ==> Exclusive(db'))
  }

  lemma KeptOn(db: Db, db': Db, db'': Db)
    requires Kept(db, db') && Kept(db', db'')
    ensures Kept(db, db'')
  {
    hide Advances, Exclusive;
    AdvancesOn(db, db', db'');
  }

  lemma NothingIsKept(db: Db)
    requires Inv(db)
    ensures Kept(db, db)
  {
    hide Advances, Exclusive, Inv;
    NothingAdvances(db);
  }

  lemma KeptInv(db: Db, db': Db)
    requires Kept(db, db')
    ensures Inv(db')
  {
  }

  lemma WriteIsKept(db: Db, db': Db, a: ActionId, c': Case)
    requires Inv(db) && a in db.actions && GoodWrite(db, db', a, c') && ExclusiveCase(a, c') && SparesRunning(db, a, c')
    ensures Kept(db, db')
  {
    hide Inv, Advances, Exclusive, SparesRunning, GoodWrite, ExclusiveCase;
    GoodWriteAdvances(db, db', a, c');
  }

  lemma RecoverIsKept(db: Db, now: Time)
    requires Inv(db)
    ensures Kept(db, Compensations.RecoverExpired(db, now))
  {
    hide Inv, Advances, Exclusive, AreCompRunning, Compensations.RecoverSet, Compensations.ExpiredRunning;
    ExpiredAreRunning(db, now);
    CompRecoverKeeps(db, Compensations.ExpiredRunning(db, now), now);
  }

  lemma RequestKeeps(db: Db, a: ActionId, parameters: nat, key: nat, holder: Option<ActionId>, actor: nat,
    expires: Time)
    requires Inv(db)
    ensures Kept(db, After(db, Compensations.Create(db, a, parameters, key, holder, actor, expires)))
  {
    hide Inv, Kept, SparesRunning, GoodWrite, ExclusiveCase;
    NothingIsKept(db);
    var o := Compensations.Create(db, a, parameters, key, holder, actor, expires);
    if o.Accepted? {
      var c' := CreateWrites(db, a, parameters, key, holder, actor, expires);
      WriteIsKept(db, o.db, a, c');
    }
  }

  lemma DispatchKeeps(db: Db, a: ActionId, version: nat, selected: Option<RunnerId>, now: Time)
    requires Inv(db)
    ensures Kept(db, After(db, Compensations.Dispatch(db, a, version, selected, now)))
  {
    hide Inv, Kept, SparesRunning, GoodWrite, ExclusiveCase, Compensations.RecoverExpired;
    NothingIsKept(db);
    var recovered := Compensations.RecoverExpired(db, now);
    RecoverIsKept(db, now);
    KeptInv(db, recovered);
    var o := Compensations.Dispatch(db, a, version, selected, now);
    if o.Accepted? {
      var c' := DispatchWrites(recovered, a, version, selected, now);
      WriteIsKept(recovered, o.db, a, c');
      KeptOn(db, recovered, o.db);
    }
  }

  lemma ClaimKeeps(cfg: Settings, db: Db, runner: RunnerId, candidate: Option<ActionId>, now: Time)
    requires Inv(db)
    ensures Kept(db, After(db, Compensations.Claim(cfg, db, runner, candidate, now)))
  {
    hide Inv, Kept, SparesRunning, GoodWrite, ExclusiveCase, Compensations.RecoverExpired;
    NothingIsKept(db);
    var recovered := Compensations.RecoverExpired(db, now);
    RecoverIsKept(db, now);
    KeptInv(db, recovered);
    var o := Compensations.Claim(cfg, db, runner, candidate, now);
    if o.Accepted? {
      var c' := CompensationPreservation.ClaimWrites(cfg, recovered, runner, candidate.value, now);
      WriteIsKept(recovered, o.db, candidate.value, c');
      KeptOn(db, recovered, o.db);
    }
  }

  lemma RenewKeeps(cfg: Settings, db: Db, a: ActionId, runner: RunnerId, x: Token, token: Token, now: Time)
    requires Inv(db)
    ensures Kept(db, After(db, Compensations.Renew(cfg, db, a, runner, x, token, now)))
  {
    hide Inv, Kept, SparesRunning, GoodWrite, ExclusiveCase;
    NothingIsKept(db);
    var o := Compensations.Renew(cfg, db, a, runner, x, token, now);
    if o.Accepted? {
      var c' := CompensationPreservation.RenewWrites(cfg, db, a, runner, x, token, now);
      WriteIsKept(db, o.db, a, c');
    }
  }

  lemma CompleteKeeps(db: Db, a: ActionId, runner: RunnerId, completion: CompletionId, x: Token, token: Token,
                      succeeded: bool, now: Time)
    requires Inv(db)
    ensures Kept(db, After(db, Compensations.Complete(db, a, runner, completion, x, token, succeeded, now)))
  {
    hide Inv, Kept, SparesRunning, GoodWrite, ExclusiveCase, Compensations.OwnershipError;
    NothingIsKept(db);
    var o := Compensations.Complete(db, a, runner, completion, x, token, succeeded, now);
    if o.Accepted? {
      var c' := CompensationPreservation.CompleteWrites(db, a, runner, completion, x, token, succeeded, now);
      WriteIsKept(db, o.db, a, c');
    }
  }

  lemma EscalateKeeps(db: Db, a: ActionId, version: nat)
    requires Inv(db)
    ensures Kept(db, After(db, Compensations.Escalate(db, a, version)))
  {
    hide Inv, Kept, SparesRunning, GoodWrite, ExclusiveCase;
    NothingIsKept(db);
    var o := Compensations.Escalate(db, a, version);
    if o.Accepted? {
      var c' := EscalateWrites(db, a, version);
      WriteIsKept(db, o.db, a, c');
    }
  }

  // ----- The decision also wakes a run --------------------------------------------------------------------

  /** What a step does to actions and locks, whatever it does to tasks and runs. */
  ghost predicate ActionsAdvance(db: Db, db': Db) {
    Inv(db') && Grows(db, db') && LeavesOutcomes(db, db') && (Exclusive(db) ==> Exclusive(db'))
  }

  lemma KeptAdvance(db: Db, db': Db)
    requires Kept(db, db')
    ensures ActionsAdvance(db, db')
  {
  }

  lemma ActionsAdvanceOn(db: Db, db': Db, db'': Db)
    requires ActionsAdvance(db, db') && ActionsAdvance(db', db'')
    ensures ActionsAdvance(db, db'')
  {
    hide Inv, Grows, LeavesOutcomes, Exclusive;
    GrowsOn(db, db', db'');
    LeavesOutcomesOn(db, db', db'');
  }

  lemma RunTablesAdvance(db: Db, db': Db)
    requires Inv(db) && db' == db.(runs := db'.runs, waits := db'.waits)
    ensures ActionsAdvance(db, db')
  {
    hide Inv, Exclusive, CaseGrows;
    RunTablesKeep(db, db');
    TableFacts(db);
    forall a | a in db.actions ensures CaseOf(db', a) == CaseOf(db, a) && CaseGrows(CaseOf(db, a), CaseOf(db, a)) {
      SameGrows(CaseOf(db, a));
    }
  }

  lemma SameGrows(c: Case)
    ensures CaseGrows(c, c)
  {
  }

  lemma ResolveTables(db: Db, subject: Subject, run: Option<RunId>)
    ensures var db' := After(db, InvestigationHitl.ResolveSubject(db, subject, run));
            db' == db.(runs := db'.runs, waits := db'.waits)
  {
  }

  /** The compensation's row after the decision. */
  function DecidedRow(db: Db, a: ActionId, approve: bool, now: Time): Db
    requires a in db.compensations
  {
    Compensations.SetCompensation(
      db, a, if db.compensations[a].expires > now && approve then CompApproved else CompRejected)
  }

  lemma DecideKeeps(db: Db, a: ActionId, approve: bool, version: nat, decider: Option<nat>, allowed: bool,
                    run: Option<RunId>, now: Time)
    requires Inv(db)
    ensures var o := Compensations.Decide(db, a, approve, version, decider, allowed, run, now);
            && ActionsAdvance(db, After(db, o))
            && (!o.Refused? ==>
                  && a in db.compensations && Kept(db, DecidedRow(db, a, approve, now))
                  && o == InvestigationHitl.ResolveSubject(DecidedRow(db, a, approve, now),
                                                           Subject(CompensationSubject, a), run))
  {
    hide Inv, Kept, ActionsAdvance, SparesRunning, GoodWrite, ExclusiveCase, InvestigationHitl.ResolveSubject;
    NothingIsKept(db);
    KeptAdvance(db, db);
    var o := Compensations.Decide(db, a, approve, version, decider, allowed, run, now);
    if !o.Refused? {
      var decided := DecidedRow(db, a, approve, now);
      var c' := DecideWrites(db, a, db.compensations[a].expires > now && approve);
      WriteIsKept(db, decided, a, c');
      KeptInv(db, decided);
      KeptAdvance(db, decided);
      ResolveTables(decided, Subject(CompensationSubject, a), run);
      RunTablesAdvance(decided, o.db);
      ActionsAdvanceOn(db, decided, o.db);
    }
  }

  /** Every request about compensations keeps the records in agreement and exclusion, whatever the leases. */
  lemma StepAdvances(cfg: Settings, db: Db, s: CompensationStep)
    requires Inv(db)
    ensures var db' := After(db, Apply(cfg, db, s));
            ActionsAdvance(db, db') && (!s.Decide? ==> ActionTablesOnly(db, db'))
  {
    hide Inv, Kept, ActionsAdvance, ActionTablesOnly, Compensations.Create, Compensations.Decide,
      Compensations.Dispatch, Compensations.Claim, Compensations.Renew, Compensations.Complete,
      Compensations.Escalate, Compensations.RecoverExpired;
    match s
    case Decide(a, approve, version, decider, allowed, run, now) =>
      DecideKeeps(db, a, approve, version, decider, allowed, run, now);
    case _ =>
      PlainStepKeeps(cfg, db, s);
      KeptAdvance(db, After(db, Apply(cfg, db, s)));
      KeptTables(db, After(db, Apply(cfg, db, s)));
  }

  lemma KeptTables(db: Db, db': Db)
    requires Kept(db, db')
    ensures ActionTablesOnly(db, db')
  {
  }

  lemma PlainStepKeeps(cfg: Settings, db: Db, s: CompensationStep)
    requires Inv(db) && !s.Decide?
    ensures Kept(db, After(db, Apply(cfg, db, s)))
  {
    hide Inv, Kept, Compensations.Create, Compensations.Dispatch,
      Compensations.Claim, Compensations.Renew, Compensations.Complete, Compensations.Escalate,
      Compensations.RecoverExpired;
    match s
    case Request(a, parameters, key, holder, actor, expires) =>
      RequestKeeps(db, a, parameters, key, holder, actor, expires);
    case Dispatch(a, version, selected, now) => DispatchKeeps(db, a, version, selected, now);
    case Claim(runner, candidate, now) => ClaimKeeps(cfg, db, runner, candidate, now);
    case Renew(a, runner, x, token, now) => RenewKeeps(cfg, db, a, runner, x, token, now);
    case Complete(a, runner, completion, x, token, succeeded, now) =>
      CompleteKeeps(db, a, runner, completion, x, token, succeeded, now);
    case Escalate(a, version) => EscalateKeeps(db, a, version);
    case Recover(now) => RecoverIsKept(db, now);
  }
}
