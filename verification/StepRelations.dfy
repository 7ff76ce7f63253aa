/** What no step undoes, over all actions and locks at once. Both relations compose over runs. */
module StepRelations {
  import opened Common
  import opened Records
  import opened ActionInvariants
  import opened ActionPreservation
  import opened CaseSteps

  /** Acquisition events are only appended; while none is, the lock keeps its owner and token, and once
      released it stays released. */
  predicate LockGrows(db: Db, db': Db, r: ResourceId) {
    && r in db.locks && r in db.grants && r in db'.locks && r in db'.grants
    && db.grants[r] <= db'.grants[r]
    && (|db'.grants[r]| == |db.grants[r]| ==>
          && db'.locks[r].owner == db.locks[r].owner && db'.locks[r].token == db.locks[r].token
          && (db.locks[r].released ==> db'.locks[r].released))
  }

  ghost predicate LocksGrow(db: Db, db': Db) {
    forall r :: r in db.locks ==> LockGrows(db, db', r)
  }

  ghost predicate Grows(db: Db, db': Db) {
    && LocksGrow(db, db')
    && forall a :: a in db.actions ==> a in db'.actions && CaseGrows(CaseOf(db, a), CaseOf(db', a))
  }

  lemma ReachesOn(s: ActionStatus, t: ActionStatus, u: ActionStatus)
    requires Reaches(s, t) && Reaches(t, u)
    ensures Reaches(s, u)
  {
  }

  lemma CaseGrowsOn(c: Case, c': Case, c'': Case)
    requires CaseGrows(c, c') && CaseGrows(c', c'')
    ensures CaseGrows(c, c'')
  {
    hide Reaches;
    ReachesOn(c.action.status, c'.action.status, c''.action.status);
  }

  lemma LocksGrowOn(db: Db, db': Db, db'': Db)
    requires LocksGrow(db, db') && LocksGrow(db', db'')
    ensures LocksGrow(db, db'')
  {
    forall r | r in db.locks ensures LockGrows(db, db'', r) {
      assert LockGrows(db, db', r) && LockGrows(db', db'', r);
    }
  }

  lemma GrowsOn(db: Db, db': Db, db'': Db)
    requires Grows(db, db') && Grows(db', db'')
    ensures Grows(db, db'')
  {
    hide LocksGrow, CaseGrows, CaseOf;
    LocksGrowOn(db, db', db'');
    forall a | a in db.actions ensures a in db''.actions && CaseGrows(CaseOf(db, a), CaseOf(db'', a)) {
      CaseGrowsOn(CaseOf(db, a), CaseOf(db', a), CaseOf(db'', a));
    }
  }

  lemma NothingGrows(db: Db)
    requires Inv(db)
    ensures Grows(db, db)
  {
    hide CaseOk, LockOk;
  }

  // ----- One written case ----------------------------------------------------------------------------

  /** The rows of another action stay as they are; only the lock it shares may change. */
  lemma OtherRows(db: Db, a: ActionId, c': Case, b: ActionId)
    requires Inv(db) && a in db.actions && CaseMoves(db, a, CaseOf(db, a), c') && b in db.actions && b != a
    ensures b in WriteCase(db, a, c').actions
    ensures var d, d' := CaseOf(db, b), CaseOf(WriteCase(db, a, c'), b);
            d' == d.(lock := d'.lock, grants := d'.grants)
  {
    hide Inv, CaseOk, TaskOk, Reaches, ExecutionGrows, LockMoves;
    CaseFacts(db, a);
    VerificationTask(db, a);
    VerificationTask(db, b);
  }

  lemma OtherGrows(db: Db, a: ActionId, c': Case, b: ActionId)
    requires Inv(db) && a in db.actions && CaseMoves(db, a, CaseOf(db, a), c') && b in db.actions && b != a
    ensures b in WriteCase(db, a, c').actions
    ensures CaseGrows(CaseOf(db, b), CaseOf(WriteCase(db, a, c'), b))
  {
    hide Inv, CaseMoves, WriteCase, CaseOf;
    OtherRows(db, a, c', b);
  }

  lemma WrittenLocks(db: Db, a: ActionId, c': Case)
    requires Inv(db) && a in db.actions && CaseMoves(db, a, CaseOf(db, a), c')
    ensures LocksGrow(db, WriteCase(db, a, c'))
  {
    hide Inv, CaseOk, TaskOk, CaseGrows, LockOk;
    TableFacts(db);
    forall r | r in db.locks ensures LockGrows(db, WriteCase(db, a, c'), r) {
    }
  }

  /** A step that writes one case moves every action and every lock forward. */
  lemma WriteGrows(db: Db, db': Db, a: ActionId, c': Case)
    requires Inv(db) && a in db.actions && Writes(db, db', a, c')
    ensures Grows(db, db')
    ensures CaseOf(db', a) == c'
  {
    hide Inv, CaseMoves, WriteCase, CaseOf, CaseOk, CaseGrows, LocksGrow;
    WrittenLocks(db, a, c');
    WriteCaseReads(db, a, c');
    WrittenCaseGrows(db, a, c');
    forall b | b in db.actions
      ensures b in db'.actions && CaseGrows(CaseOf(db, b), CaseOf(db', b))
    {
      if b != a { OtherGrows(db, a, c', b); } else { ActionStays(db, a, c'); }
    }
  }

  lemma ActionStays(db: Db, a: ActionId, c': Case)
    requires a in db.actions
    ensures a in WriteCase(db, a, c').actions
  {
  }

  lemma WrittenCaseGrows(db: Db, a: ActionId, c': Case)
    requires a in db.actions && CaseMoves(db, a, CaseOf(db, a), c')
    ensures CaseGrows(CaseOf(db, a), c')
  {
  }

  // ----- Steps on actions and compensations --------------------------------------------------------------

  ghost predicate LeavesOutcomes(db: Db, db': Db) {
    forall a :: a in db.actions ==> a in db'.actions && LeavesOutcome(CaseOf(db, a), CaseOf(db', a))
  }

  /** Runs, waits and existing tasks stay as they are; a new task is queued for its first attempt. */
  ghost predicate ActionTablesOnly(db: Db, db': Db) {
    && db'.runs == db.runs && db'.waits == db.waits
    && (forall t :: t in db.tasks ==> t in db'.tasks && db'.tasks[t] == db.tasks[t])
    && (forall t :: t in db'.tasks && t !in db.tasks ==>
          db'.tasks[t].wait.None? && db'.tasks[t].attempt == 0 && db'.tasks[t].status.TaskQueued?)
  }

  /** What every step on an action or a compensation does. */
  ghost predicate Progresses(db: Db, db': Db) {
    Inv(db') && Grows(db, db') && ActionTablesOnly(db, db')
  }

  /** What all of them do but reconciliation. */
  ghost predicate Advances(db: Db, db': Db) {
    Progresses(db, db') && LeavesOutcomes(db, db')
  }

  lemma LeavesOutcomesOn(db: Db, db': Db, db'': Db)
    requires LeavesOutcomes(db, db') && LeavesOutcomes(db', db'')
    ensures LeavesOutcomes(db, db'')
  {
    hide CaseOf;
  }

  lemma AdvancesOn(db: Db, db': Db, db'': Db)
    requires Advances(db, db') && Advances(db', db'')
    ensures Advances(db, db'')
  {
    hide Grows, LeavesOutcomes, Inv;
    GrowsOn(db, db', db'');
    LeavesOutcomesOn(db, db', db'');
  }

  lemma NothingAdvances(db: Db)
    requires Inv(db)
    ensures Advances(db, db)
  {
    hide Grows, Inv;
    NothingGrows(db);
  }

  lemma WriteLeavesOutcomes(db: Db, db': Db, a: ActionId, c': Case)
    requires Inv(db) && a in db.actions && GoodWrite(db, db', a, c')
    ensures LeavesOutcomes(db, db')
  {
    hide Inv, CaseMoves, WriteCase, CaseOk, CaseOf;
    WriteCaseReads(db, a, c');
    ActionStays(db, a, c');
    forall b | b in db.actions
      ensures b in db'.actions && LeavesOutcome(CaseOf(db, b), CaseOf(db', b))
    {
      if b != a { OtherRows(db, a, c', b); }
    }
  }

  lemma NewVerificationTask(a: ActionId, c: Case, c': Case)
    requires CaseOk(a, c') && c.verification.None? && c'.verification.Some?
    ensures c'.task.Some? && c'.task.value.wait.None?
  {
  }

  lemma WriteTasks(db: Db, db': Db, a: ActionId, c': Case)
    requires Inv(db) && a in db.actions && Writes(db, db', a, c') && TaskIsNew(CaseOf(db, a), c')
    ensures ActionTablesOnly(db, db')
  {
    hide Inv, CaseOk, Reaches, ExecutionGrows, LockMoves, LeavesOutcome, TaskOk;
    VerificationTask(db, a);
    if c'.verification.Some? && a !in db.verifications { NewVerificationTask(a, CaseOf(db, a), c'); }
  }

  lemma GoodWriteAdvances(db: Db, db': Db, a: ActionId, c': Case)
    requires Inv(db) && a in db.actions && GoodWrite(db, db', a, c')
    ensures Advances(db, db')
    ensures Exclusive(db) && ExclusiveCase(a, c') && SparesRunning(db, a, c') ==> Exclusive(db')
  {
    hide *;
    GoodWriteIsWrite(db, db', a, c');
    WriteProgresses(db, db', a, c');
    WriteLeavesOutcomes(db, db', a, c');
    AdvanceParts(db, db');
  }

  lemma GoodWriteIsWrite(db: Db, db': Db, a: ActionId, c': Case)
    requires a in db.actions && GoodWrite(db, db', a, c')
    ensures Writes(db, db', a, c') && TaskIsNew(CaseOf(db, a), c')
  {
  }

  lemma WriteProgresses(db: Db, db': Db, a: ActionId, c': Case)
    requires Inv(db) && a in db.actions && Writes(db, db', a, c') && TaskIsNew(CaseOf(db, a), c')
    ensures Progresses(db, db')
    ensures Exclusive(db) && ExclusiveCase(a, c') && SparesRunning(db, a, c') ==> Exclusive(db')
  {
    hide Inv, Grows, Writes, TaskIsNew, ActionTablesOnly, Exclusive, ExclusiveCase, SparesRunning, CaseOf;
    GoodWriteKeeps(db, db', a, c');
    WriteGrows(db, db', a, c');
    WriteTasks(db, db', a, c');
  }

  lemma AdvanceParts(db: Db, db': Db)
    requires Progresses(db, db') && LeavesOutcomes(db, db')
    ensures Advances(db, db')
  {
  }
}
