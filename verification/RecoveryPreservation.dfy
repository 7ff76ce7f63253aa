/** Recovery of expired executions keeps the invariants, whichever lapsed executions it handles. */
module RecoveryPreservation {
  import opened Common
  import opened Records
  import opened ActionInvariants
  import opened CaseSteps
  import opened StepRelations
  import ActionDispatcher
  import Compensations

  ghost predicate AreRunning(db: Db, lapsed: set<ActionId>) {
    forall a :: a in lapsed ==> a in db.executions && db.executions[a].status.Running?
  }

  predicate OwnerIn(c: Case, lapsed: set<ActionId>) {
    c.lock.Some? && c.lock.value.owner in lapsed
  }

  lemma RecoveredCaseOf(db: Db, lapsed: set<ActionId>, now: Time, a: ActionId)
    requires AreRunning(db, lapsed) && a in db.actions && db.executions.Keys <= db.actions.Keys
    ensures CaseOf(ActionDispatcher.RecoverSet(db, lapsed, now), a)
            == Recovered(CaseOf(db, a), a in lapsed, OwnerIn(CaseOf(db, a), lapsed), now)
  {
  }

  lemma RecoveredLock(db: Db, lapsed: set<ActionId>, now: Time, r: ResourceId)
    requires r in db.locks && LockOk(db, r)
    ensures LockOk(ActionDispatcher.RecoverSet(db, lapsed, now), r)
    ensures LockGrows(db, ActionDispatcher.RecoverSet(db, lapsed, now), r)
  {
  }

  lemma RecoveredCaseIsRight(db: Db, lapsed: set<ActionId>, now: Time, a: ActionId)
    requires Inv(db) && AreRunning(db, lapsed) && a in db.actions
    ensures a in ActionDispatcher.RecoverSet(db, lapsed, now).actions
    ensures var c, c' := CaseOf(db, a), CaseOf(ActionDispatcher.RecoverSet(db, lapsed, now), a);
            CaseOk(a, c') && Steps(c, c') && (ExclusiveCase(a, c) ==> ExclusiveCase(a, c'))
  {
    hide Inv, CaseOk, CaseOf, LockOk, ExclusiveCase, Recovered, Steps, AreRunning;
    TableFacts(db);
    CaseFacts(db, a);
    RecoveredCaseOf(db, lapsed, now, a);
    if a in lapsed { RunningCase(db, lapsed, a); }
    OwnerFlag(db, lapsed, a);
    RecoveredIsRight(a, CaseOf(db, a), a in lapsed, OwnerIn(CaseOf(db, a), lapsed), now);
  }

  /** All that is left to show when every case, every lock and the other tables are in order. */
  lemma Advance(db: Db, db': Db)
    requires Inv(db) && db'.tasks == db.tasks && db'.runs == db.runs && db'.waits == db.waits
    requires db'.verifications == db.verifications && db'.grants == db.grants
    requires db'.actions.Keys == db.actions.Keys && db'.locks.Keys == db.locks.Keys
    requires db'.executions.Keys == db.executions.Keys && db'.compensations.Keys == db.compensations.Keys
    requires db'.compExecutions.Keys == db.compExecutions.Keys
    requires forall a :: a in db.actions ==>
               var c, c' := CaseOf(db, a), CaseOf(db', a);
               CaseOk(a, c') && Steps(c, c') && (ExclusiveCase(a, c) ==> ExclusiveCase(a, c'))
    requires forall r :: r in db.locks ==> LockOk(db', r) && LockGrows(db, db', r)
    ensures Advances(db, db') && (Exclusive(db) ==> Exclusive(db'))
  {
    hide CaseOk, CaseOf, ExclusiveCase, CaseGrows, LeavesOutcome, LockOk, LockGrows, TaskOk;
    forall t | t in db'.tasks ensures TaskOk(db'.tasks[t]) && TaskLinked(db', t) {
      assert TaskLinked(db, t);
    }
  }

  lemma RecoverKeeps(db: Db, lapsed: set<ActionId>, now: Time)
    requires Inv(db) && AreRunning(db, lapsed)
    ensures Advances(db, ActionDispatcher.RecoverSet(db, lapsed, now))
    ensures Exclusive(db) ==> Exclusive(ActionDispatcher.RecoverSet(db, lapsed, now))
  {
    hide Inv, CaseOk, CaseOf, LockOk, ExclusiveCase, Steps, LockGrows, Advances, Exclusive, AreRunning;
    var db' := ActionDispatcher.RecoverSet(db, lapsed, now);
    forall a | a in db.actions
      ensures var c, c' := CaseOf(db, a), CaseOf(db', a);
              CaseOk(a, c') && Steps(c, c') && (ExclusiveCase(a, c) ==> ExclusiveCase(a, c'))
    {
      RecoveredCaseIsRight(db, lapsed, now, a);
    }
    forall r | r in db.locks ensures LockOk(db', r) && LockGrows(db, db', r) {
      LockFacts(db, r);
      RecoveredLock(db, lapsed, now, r);
    }
    Advance(db, db');
  }

  lemma LockFacts(db: Db, r: ResourceId)
    requires Inv(db) && r in db.locks
    ensures LockOk(db, r)
  {
  }

  lemma RunningCase(db: Db, lapsed: set<ActionId>, a: ActionId)
    requires AreRunning(db, lapsed) && a in db.actions && a in lapsed
    ensures CaseOf(db, a).execution.Some? && CaseOf(db, a).execution.value.status.Running?
  {
  }

  /** After `recover_expired` no running execution has outlived its lease. */
  lemma NothingExpiredIsLeft(db: Db, now: Time)
    ensures var db' := ActionDispatcher.RecoverExpired(db, now);
            forall a :: a in db'.executions && db'.executions[a].status.Running? ==>
              db'.executions[a].lease.Some? ==> db'.executions[a].lease.value > now
  {
  }

  ghost predicate AreCompRunning(db: Db, lapsed: set<ActionId>) {
    forall a :: a in lapsed ==> a in db.compExecutions && db.compExecutions[a].status.CompRunning?
                                && a in db.compensations
  }

  lemma CompRecoveredCaseOf(db: Db, lapsed: set<ActionId>, now: Time, a: ActionId)
    requires AreCompRunning(db, lapsed) && a in db.actions
    ensures CaseOf(Compensations.RecoverSet(db, lapsed, now), a)
            == CompRecovered(CaseOf(db, a), a in lapsed, OwnerIn(CaseOf(db, a), lapsed), now)
  {
  }

  lemma CompRecoveredLock(db: Db, lapsed: set<ActionId>, now: Time, r: ResourceId)
    requires r in db.locks && LockOk(db, r)
    ensures LockOk(Compensations.RecoverSet(db, lapsed, now), r)
    ensures LockGrows(db, Compensations.RecoverSet(db, lapsed, now), r)
  {
  }

  lemma CompRunningCase(db: Db, lapsed: set<ActionId>, a: ActionId)
    requires AreCompRunning(db, lapsed) && a in db.actions && a in lapsed
    ensures CaseOf(db, a).compExecution.Some? && CaseOf(db, a).compExecution.value.status.CompRunning?
  {
  }

  lemma CompRecoveredCaseIsRight(db: Db, lapsed: set<ActionId>, now: Time, a: ActionId)
    requires Inv(db) && AreCompRunning(db, lapsed) && a in db.actions
    ensures a in Compensations.RecoverSet(db, lapsed, now).actions
    ensures var c, c' := CaseOf(db, a), CaseOf(Compensations.RecoverSet(db, lapsed, now), a);
            CaseOk(a, c') && Steps(c, c') && (ExclusiveCase(a, c) ==> ExclusiveCase(a, c'))
  {
    hide Inv, CaseOk, CaseOf, LockOk, ExclusiveCase, CompRecovered, Steps, AreCompRunning;
    CaseFacts(db, a);
    CompRecoveredCaseOf(db, lapsed, now, a);
    if a in lapsed { CompRunningCase(db, lapsed, a); }
    OwnerFlag(db, lapsed, a);
    CompRecoveredIsRight(a, CaseOf(db, a), a in lapsed, OwnerIn(CaseOf(db, a), lapsed), now);
  }

  lemma CompRecoverKeeps(db: Db, lapsed: set<ActionId>, now: Time)
    requires Inv(db) && AreCompRunning(db, lapsed)
    ensures Advances(db, Compensations.RecoverSet(db, lapsed, now))
    ensures Exclusive(db) ==> Exclusive(Compensations.RecoverSet(db, lapsed, now))
  {
    hide Inv, CaseOk, CaseOf, LockOk, ExclusiveCase, Steps, LockGrows, Advances, Exclusive, AreCompRunning;
    var db' := Compensations.RecoverSet(db, lapsed, now);
    forall a | a in db.actions
      ensures var c, c' := CaseOf(db, a), CaseOf(db', a);
              CaseOk(a, c') && Steps(c, c') && (ExclusiveCase(a, c) ==> ExclusiveCase(a, c'))
    {
      CompRecoveredCaseIsRight(db, lapsed, now, a);
    }
    forall r | r in db.locks ensures LockOk(db', r) && LockGrows(db, db', r) {
      LockFacts(db, r);
      CompRecoveredLock(db, lapsed, now, r);
    }
    Advance(db, db');
  }

  lemma OwnerFlag(db: Db, lapsed: set<ActionId>, a: ActionId)
    requires a in db.actions
    ensures var c := CaseOf(db, a);
            c.lock.Some? && c.lock.value.owner == a ==> OwnerIn(c, lapsed) == (a in lapsed)
  {
  }

  /** The compensation of a running compensation execution exists. */
  lemma ExpiredAreRunning(db: Db, now: Time)
    requires Inv(db)
    ensures AreRunning(db, ActionDispatcher.ExpiredRunning(db, now))
    ensures AreCompRunning(db, Compensations.ExpiredRunning(db, now))
  {
    forall a | a in Compensations.ExpiredRunning(db, now)
      ensures a in db.compensations
    {
      CaseFacts(db, a);
    }
  }
}
