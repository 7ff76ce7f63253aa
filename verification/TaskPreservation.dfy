/** Every step on runner tasks keeps the invariants: plain tasks only meet the queue bounds, a verification
    task moves its action's case. */
module TaskPreservation {
  import opened Common
  import opened Records
  import opened ActionInvariants
  import opened ActionPreservation
  import opened CaseSteps
  import opened StepRelations
  import opened RunnerTasks
  import opened ActionVerifications
  import opened ResourceLocks
  import opened InvestigationHitl

  // ----- What a step on tasks does -------------------------------------------------------------------

  ghost predicate AllVerify(db: Db, db': Db) {
    forall a :: a in db.actions ==> a in db'.actions && Verifies(CaseOf(db, a), CaseOf(db', a))
  }

  ghost predicate Keeps(db: Db, db': Db) {
    Inv(db') && (Exclusive(db) ==> Exclusive(db')) && LocksGrow(db, db') && AllVerify(db, db')
  }

  lemma VerifiesOn(c: Case, c': Case, c'': Case)
    requires Verifies(c, c') && Verifies(c', c'')
    ensures Verifies(c, c'')
  {
    CaseGrowsOn(c, c', c'');
  }

  lemma AllVerifyOn(db: Db, db': Db, db'': Db)
    requires AllVerify(db, db') && AllVerify(db', db'')
    ensures AllVerify(db, db'')
  {
    hide Verifies, CaseOf;
    forall a | a in db.actions ensures a in db''.actions && Verifies(CaseOf(db, a), CaseOf(db'', a)) {
      VerifiesOn(CaseOf(db, a), CaseOf(db', a), CaseOf(db'', a));
    }
  }

  lemma KeepsOn(db: Db, db': Db, db'': Db)
    requires Keeps(db, db') && Keeps(db', db'')
    ensures Keeps(db, db'')
  {
    hide Inv, Exclusive, LocksGrow, AllVerify;
    LocksGrowOn(db, db', db'');
    AllVerifyOn(db, db', db'');
  }

  lemma KeptInv(db: Db, db': Db)
    requires Keeps(db, db')
    ensures Inv(db') && (Exclusive(db) ==> Exclusive(db'))
  {
  }

  // ----- Changes outside the action tables ----------------------------------------------------------

  /** Runs, waits and tasks without a verification are outside every case. */
  ghost predicate Outside(db: Db, db': Db) {
    && db' == db.(tasks := db'.tasks, runs := db'.runs, waits := db'.waits)
    && db.tasks.Keys <= db'.tasks.Keys
    && forall t :: t in db'.tasks && (t !in db.tasks || db'.tasks[t] != db.tasks[t]) ==>
         && db'.tasks[t].verification.None? && TaskOk(db'.tasks[t])
         && (t in db.tasks ==> db.tasks[t].verification.None?)
  }

  lemma OutsideKeeps(db: Db, db': Db)
    requires Inv(db) && Outside(db, db')
    ensures Keeps(db, db')
  {
    hide CaseOk, ExclusiveCase, TaskOk, LockOk, Verifies;
    forall a | a in db.actions ensures CaseOf(db', a) == CaseOf(db, a) && Verifies(CaseOf(db, a), CaseOf(db', a)) {
      VerificationTask(db, a);
      SameVerifies(CaseOf(db, a));
    }
    forall r | r in db.locks ensures LockOk(db', r) { SameLock(db, db', r); }
    forall t | t in db'.tasks ensures TaskOk(db'.tasks[t]) && TaskLinked(db', t) {
      assert t in db.tasks ==> TaskOk(db.tasks[t]) && TaskLinked(db, t);
    }
  }

  lemma SameVerifies(c: Case)
    ensures Verifies(c, c)
  {
  }

  lemma SameLock(db: Db, db': Db, r: ResourceId)
    requires r in db.locks && LockOk(db, r) && Outside(db, db')
    ensures LockOk(db', r)
  {
  }

  lemma ResolveIsOutside(db: Db, t: TaskId)
    ensures Outside(db, ResolveTask(db, t)) && ResolveTask(db, t).tasks == db.tasks
  {
  }

  lemma RunTablesKeep(db: Db, db': Db)
    requires Inv(db) && db' == db.(runs := db'.runs, waits := db'.waits)
    ensures Keeps(db, db')
  {
    hide Inv, Keeps;
    OutsideKeeps(db, db');
  }

  lemma NothingIsKept(db: Db)
    requires Inv(db)
    ensures Keeps(db, db)
  {
    hide Inv, Keeps;
    RunTablesKeep(db, db);
  }

  lemma ResolveKeeps(db: Db, t: TaskId)
    requires Inv(db)
    ensures Keeps(db, ResolveTask(db, t)) && ResolveTask(db, t).tasks == db.tasks
  {
    hide Inv, Keeps, ResolveTask, Outside;
    ResolveIsOutside(db, t);
    OutsideKeeps(db, ResolveTask(db, t));
  }

  /** A task without a verification is not part of any case. */
  lemma PlainTask(db: Db, t: TaskId, task: Task)
    requires Inv(db) && TaskOk(task) && task.verification.None?
    requires t in db.tasks ==> db.tasks[t].verification.None?
    ensures Keeps(db, SetTask(db, t, task))
  {
    hide Inv, Keeps, TaskOk;
    OutsideKeeps(db, SetTask(db, t, task));
  }

  // ----- Verification tasks ------------------------------------------------------------------------------

  /** A live task of a verification belongs to an open one. */
  lemma LiveTaskCase(db: Db, t: TaskId)
    requires Inv(db) && t in db.tasks && db.tasks[t].verification.Some? && Live(db.tasks[t])
    ensures var a := db.tasks[t].verification.value;
            && a in db.actions && a in db.verifications && db.verifications[a].task == t
            && !Terminal(db.verifications[a])
            && (db.verifications[a].status.Queued? ==> db.tasks[t].status.TaskQueued?)
            && CaseOf(db, a).task == Some(db.tasks[t]) && CaseOf(db, a).verification == Some(db.verifications[a])
            && db.tasks[t].planStep.None? && db.tasks[t].wait.None?
            && CaseOf(db, a).execution.Some?
  {
    hide Inv, CaseOk, LockOk;
    TaskFacts(db, t);
    var a := db.tasks[t].verification.value;
    TableFacts(db);
    CaseFacts(db, a);
    LiveTaskIsOpen(a, CaseOf(db, a));
  }

  lemma LiveTaskIsOpen(a: ActionId, c: Case)
    requires CaseOk(a, c) && c.verification.Some? && c.task.Some? && Live(c.task.value)
    ensures !Terminal(c.verification.value) && c.execution.Some?
    ensures c.task.value.planStep.None? && c.task.value.wait.None?
    ensures c.verification.value.status.Queued? ==> c.task.value.status.TaskQueued?
  {
  }

  lemma TaskRowsAreStored(db: Db, a: ActionId, c': Case)
    requires a in db.actions && db.grants.Keys == db.locks.Keys
    requires var c := CaseOf(db, a);
             c' == c.(task := c'.task, verification := c'.verification) && c'.verification.Some? && c'.task.Some?
             && c.verification.Some?
    ensures WriteCase(db, a, c') == db.(
              verifications := db.verifications[a := c'.verification.value],
              tasks := db.tasks[c'.verification.value.task := c'.task.value])
  {
    hide Put;
    CaseIsStored(db, a);
    PutWrites(db.verifications, a, c'.verification.value);
    PutWrites(db.tasks, c'.verification.value.task, c'.task.value);
  }

  lemma TaskMoves(db: Db, a: ActionId, c': Case)
    requires Inv(db) && a in db.actions
    requires var c := CaseOf(db, a);
             && CaseGrows(c, c') && c.verification.Some? && c'.grants == c.grants
             && c'.task.Some? && TaskOk(c'.task.value) && c'.task.value.verification == Some(a)
             && (c'.lock != c.lock ==> c.lock.Some? && c.lock.value.owner == a && c'.lock.Some?
                                       && c'.lock.value.owner == a && c'.lock.value.token == c.lock.value.token
                                       && (c.lock.value.released ==> c'.lock.value.released))
    ensures CaseMoves(db, a, CaseOf(db, a), c')
  {
    hide Inv, CaseOk, TaskOk, Reaches;
    CaseFacts(db, a);
  }

  /** A live verification task that stays live. */
  lemma LiveTaskKeeps(db: Db, t: TaskId, task: Task, v: Verification)
    requires Inv(db) && t in db.tasks && db.tasks[t].verification.Some? && Live(db.tasks[t])
    requires Live(task) && TaskOk(task) && task.verification == db.tasks[t].verification
    requires task.planStep == db.tasks[t].planStep && task.wait == db.tasks[t].wait
    requires var a := task.verification.value;
             a in db.verifications ==> v.task == db.verifications[a].task && !Terminal(v)
    requires v.status.Queued? ==> task.status.TaskQueued?
    ensures Keeps(db, SetTask(db, t, task).(verifications := db.verifications[task.verification.value := v]))
  {
    hide Inv, CaseMoves, CaseOk, TaskOk, ExclusiveCase, WriteCase, LockOk, Exclusive, Keeps, CaseGrows, Verifies;
    LiveTaskCase(db, t);
    TableFacts(db);
    var a := task.verification.value;
    var c := CaseOf(db, a);
    var c' := c.(task := Some(task), verification := Some(v));
    CaseFacts(db, a);
    TaskKeptLive(a, c, task, v);
    TaskRowsAreStored(db, a, c');
    TaskMoves(db, a, c');
    if Exclusive(db) { ExclusiveFacts(db, a); }
    WriteVerifies(db, WriteCase(db, a, c'), a, c');
  }

  /** A step on a verification task writes the case of its action. */
  lemma WriteVerifies(db: Db, db': Db, a: ActionId, c': Case)
    requires Inv(db) && a in db.actions && Writes(db, db', a, c')
    requires Verifies(CaseOf(db, a), c') && SparesRunning(db, a, c')
    requires Exclusive(db) ==> ExclusiveCase(a, c')
    ensures Keeps(db, db')
  {
    hide *;
    GoodWriteKeeps(db, db', a, c');
    WriteParts(db, db', a, c');
    WrittenLocks(db, a, c');
    WriteCaseReads(db, a, c');
    ActionStays(db, a, c');
    forall b | b in db.actions
      ensures b in db'.actions && Verifies(CaseOf(db, b), CaseOf(db', b))
    {
      if b != a {
        OtherRows(db, a, c', b);
        OtherVerifies(CaseOf(db, b), CaseOf(db', b));
      }
    }
    KeepsParts(db, db');
  }

  lemma WriteParts(db: Db, db': Db, a: ActionId, c': Case)
    requires a in db.actions && Writes(db, db', a, c')
    ensures db' == WriteCase(db, a, c') && CaseMoves(db, a, CaseOf(db, a), c')
  {
  }

  lemma OtherVerifies(c: Case, c': Case)
    requires c' == c.(lock := c'.lock, grants := c'.grants)
    ensures Verifies(c, c')
  {
  }

  lemma KeepsParts(db: Db, db': Db)
    requires Inv(db') && (Exclusive(db) ==> Exclusive(db')) && LocksGrow(db, db')
    requires forall a :: a in db.actions ==> a in db'.actions && Verifies(CaseOf(db, a), CaseOf(db', a))
    ensures Keeps(db, db')
  {
  }

  lemma ExclusiveFacts(db: Db, a: ActionId)
    requires Exclusive(db) && a in db.actions
    ensures ExclusiveCase(a, CaseOf(db, a))
  {
  }

  /** A live verification task that ends and decides its verification. */
  lemma DecidingTaskKeeps(db: Db, t: TaskId, task: Task, passed: bool, now: Time)
    requires Inv(db) && t in db.tasks && db.tasks[t].verification.Some? && Live(db.tasks[t])
    requires TaskOk(task) && task.verification == db.tasks[t].verification
    requires task.planStep == db.tasks[t].planStep && task.wait == db.tasks[t].wait
    requires if passed then task.status.TaskSucceeded? else task.status.TaskFailed? && task.attempt >= task.maxAttempts
    ensures var db' := FinalizeTask(SetTask(db, t, task), t, passed, now);
            Keeps(db, db')
  {
    hide Inv, CaseMoves, CaseOk, TaskOk, ExclusiveCase, WriteCase, LockOk, Exclusive, FinalizeTask, Keeps, Verifies;
    LiveTaskCase(db, t);
    TableFacts(db);
    var a := task.verification.value;
    var c := CaseOf(db, a);
    CaseFacts(db, a);
    DecidedIsRight(a, c, task, passed, now);
    var c' := CaseSteps.Decided(a, c, task, passed, now);
    DecidedTables(db, t, task, passed, now);
    TaskMoves(db, a, c');
    WriteVerifies(db, WriteCase(db, a, c'), a, c');
  }

  lemma DecidedTables(db: Db, t: TaskId, task: Task, passed: bool, now: Time)
    requires Inv(db) && t in db.tasks && db.tasks[t].verification.Some? && Live(db.tasks[t])
    requires task.verification == db.tasks[t].verification
    requires !passed ==> task.attempt >= task.maxAttempts
    ensures var a := task.verification.value;
            && a in db.actions && CaseOf(db, a).verification.Some? && CaseOf(db, a).execution.Some?
            && FinalizeTask(SetTask(db, t, task), t, passed, now)
               == WriteCase(db, a, CaseSteps.Decided(a, CaseOf(db, a), task, passed, now))
  {
    hide Inv, CaseOk, Put, LockOf, Owns;
    LiveTaskCase(db, t);
    TableFacts(db);
    var a := task.verification.value;
    var c := CaseOf(db, a);
    var c' := CaseSteps.Decided(a, c, task, passed, now);
    LockOfCase(db, a);
    ActionPreservation.LockOfCase(SetTask(db, t, task), a);
    SameOwner(db, t, task, a);
    CaseIsStored(db, a);
    PutWrites(db.actions, a, c'.action);
    PutWrites(db.executions, a, c'.execution.value);
    PutWrites(db.verifications, a, c'.verification.value);
    PutWrites(db.tasks, t, task);
    if c'.lock.Some? { PutWrites(db.locks, c.action.resource, c'.lock.value); }
  }

  lemma SameOwner(db: Db, t: TaskId, task: Task, a: ActionId)
    requires a in db.actions
    ensures LockOf(SetTask(db, t, task), a) == LockOf(db, a)
  {
  }

  // ----- Endings -------------------------------------------------------------------------------------------

  lemma PlainEnding(db: Db, how: Ending, t: TaskId)
    requires Inv(db) && t in db.tasks && db.tasks[t].verification.None?
    ensures Keeps(db, EndTask(db, how, t))
  {
    hide Inv, Keeps, ResolveTask;
    NothingIsKept(db);
    TaskFacts(db, t);
    var task := db.tasks[t];
    var given, lost := GivenBack(task), GivenBack(task).(runner := None);
    var withdrawn := task.(status := TaskCancelled, token := None, lease := None);
    PlainTask(db, t, given);
    PlainTask(db, t, lost);
    PlainTask(db, t, withdrawn);
    KeptInv(db, SetTask(db, t, given));
    KeptInv(db, SetTask(db, t, withdrawn));
    ResolveKeeps(SetTask(db, t, given), t);
    ResolveKeeps(SetTask(db, t, withdrawn), t);
    KeepsOn(db, SetTask(db, t, given), ResolveTask(SetTask(db, t, given), t));
    KeepsOn(db, SetTask(db, t, withdrawn), ResolveTask(SetTask(db, t, withdrawn), t));
  }

  lemma TaskFacts(db: Db, t: TaskId)
    requires Inv(db) && t in db.tasks
    ensures TaskOk(db.tasks[t]) && TaskLinked(db, t)
  {
  }

  /** A verification task waits for no run. */
  lemma NoWait(db: Db, t: TaskId, task: Task)
    requires task.wait.None?
    ensures ResolveTask(SetTask(db, t, task), t) == SetTask(db, t, task)
  {
  }

  lemma VerifyingEnding(db: Db, how: Ending, t: TaskId)
    requires Inv(db) && t in db.tasks && db.tasks[t].verification.Some?
    ensures Keeps(db, EndTask(db, how, t))
  {
    hide Inv, Keeps, ResolveTask, FinalizeTask;
    NothingIsKept(db);
    TaskFacts(db, t);
    var task := db.tasks[t];
    if Live(task) {
      LiveTaskCase(db, t);
      var a := task.verification.value;
      var given, lost := GivenBack(task), GivenBack(task).(runner := None);
      if !task.status.TaskLeased? {
      } else if task.attempt < task.maxAttempts {
        LiveTaskKeeps(db, t, given, db.verifications[a]);
        LiveTaskKeeps(db, t, lost, db.verifications[a]);
        assert db.verifications[a := db.verifications[a]] == db.verifications;
      } else {
        NoWait(db, t, given);
        DecidingTaskKeeps(db, t, given, false, if how.Withdrawal? then 0 else how.now);
      }
    }
  }

  lemma EndKeeps(db: Db, how: Ending, t: TaskId)
    requires Inv(db)
    ensures Keeps(db, EndTask(db, how, t))
  {
    hide Inv, Keeps;
    NothingIsKept(db);
    if t in db.tasks {
      if db.tasks[t].verification.None? { PlainEnding(db, how, t); } else { VerifyingEnding(db, how, t); }
    }
  }

  lemma {:induction false} EndAllKeeps(db: Db, how: Ending, ids: seq<TaskId>)
    requires Inv(db)
    ensures Keeps(db, EndAll(db, how, ids))
  {
    hide Inv, Keeps, EndTask;
    NothingIsKept(db);
    if ids != [] {
      EndAllKeeps(db, how, ids[..|ids|-1]);
      KeptInv(db, EndAll(db, how, ids[..|ids|-1]));
      EndKeeps(EndAll(db, how, ids[..|ids|-1]), how, ids[|ids|-1]);
      KeepsOn(db, EndAll(db, how, ids[..|ids|-1]), EndAll(db, how, ids));
    }
  }

  // ----- Lease, renewal, completion ---------------------------------------------------------------------------

  lemma LeaseKeeps(cfg: Settings, db: Db, t: TaskId, runner: RunnerId, token: Token, now: Time)
    requires Inv(db) && t in db.tasks && db.tasks[t].status.TaskQueued?
    ensures var db' := MarkRunning(SetTask(db, t, Leased(cfg, db.tasks[t], runner, token, now)), t);
            Keeps(db, db')
  {
    hide Inv, Keeps;
    TaskFacts(db, t);
    var leased := Leased(cfg, db.tasks[t], runner, token, now);
    if leased.verification.None? {
      PlainTask(db, t, leased);
    } else {
      LiveTaskCase(db, t);
      var a := leased.verification.value;
      var v := db.verifications[a];
      LiveTaskKeeps(db, t, leased, v.(status := Checking));
      if !v.status.Queued? { LiveTaskKeeps(db, t, leased, v); }
      assert db.verifications[a := v] == db.verifications;
    }
  }

  lemma RenewTaskKeeps(cfg: Settings, db: Db, t: TaskId, now: Time)
    requires Inv(db) && t in db.tasks && db.tasks[t].status.TaskLeased?
    ensures var db' := SetTask(db, t, db.tasks[t].(lease := Some(now + cfg.taskLease)));
            Keeps(db, db')
  {
    hide Inv, Keeps;
    TaskFacts(db, t);
    var renewed := db.tasks[t].(lease := Some(now + cfg.taskLease));
    if renewed.verification.None? {
      PlainTask(db, t, renewed);
    } else {
      LiveTaskCase(db, t);
      var a := renewed.verification.value;
      LiveTaskKeeps(db, t, renewed, db.verifications[a]);
      assert db.verifications[a := db.verifications[a]] == db.verifications;
    }
  }

  lemma CompleteTaskKeeps(db: Db, t: TaskId, runner: RunnerId, completion: CompletionId, token: Token,
                          succeeded: bool, now: Time)
    requires Inv(db)
    ensures var db' := After(db, Complete(db, t, runner, completion, token, succeeded, now));
            Keeps(db, db')
  {
    hide Inv, Keeps, ResolveTask, FinalizeTask;
    NothingIsKept(db);
    if Complete(db, t, runner, completion, token, succeeded, now).Accepted? {
      TaskFacts(db, t);
      var done := db.tasks[t].(status := if succeeded then TaskSucceeded else TaskFailed,
                               completion := Some(completion), lease := None);
      var final := FinalizeTask(SetTask(db, t, done), t, succeeded, now);
      FinalizedKeeps(db, t, done, succeeded, now);
      KeptInv(db, final);
      ResolveKeeps(final, t);
      KeepsOn(db, final, ResolveTask(final, t));
    }
  }

  lemma NotDeciding(db: Db, t: TaskId, done: Task, succeeded: bool, now: Time)
    requires done.verification.None?
    ensures FinalizeTask(SetTask(db, t, done), t, succeeded, now) == SetTask(db, t, done)
  {
  }

  function Again(done: Task): Task {
    done.(status := TaskQueued, runner := None, token := None, lease := None)
  }

  lemma RetryTables(db: Db, t: TaskId, done: Task, a: ActionId, now: Time)
    requires done.verification == Some(a) && done.attempt < done.maxAttempts
    requires a in db.verifications && !Terminal(db.verifications[a])
    ensures FinalizeTask(SetTask(db, t, done), t, false, now)
            == SetTask(db, t, Again(done)).(
                 verifications := db.verifications[a := db.verifications[a].(status := Queued)])
  {
    assert db.tasks[t := done][t := Again(done)] == db.tasks[t := Again(done)];
  }

  lemma FinalizedKeeps(db: Db, t: TaskId, done: Task, succeeded: bool, now: Time)
    requires Inv(db) && t in db.tasks && db.tasks[t].status.TaskLeased?
    requires done == db.tasks[t].(status := if succeeded then TaskSucceeded else TaskFailed,
                                  completion := done.completion, lease := None)
    ensures Keeps(db, FinalizeTask(SetTask(db, t, done), t, succeeded, now))
  {
    hide Inv, Keeps, FinalizeTask;
    TaskFacts(db, t);
    if done.verification.None? {
      PlainTask(db, t, done);
      NotDeciding(db, t, done, succeeded, now);
    } else if succeeded || done.attempt >= done.maxAttempts {
      DecidingTaskKeeps(db, t, done, succeeded, now);
    } else {
      LiveTaskCase(db, t);
      var a := done.verification.value;
      LiveTaskKeeps(db, t, Again(done), db.verifications[a].(status := Queued));
      RetryTables(db, t, done, a, now);
    }
  }
}
