/** How an action's outcome comes about, over whole runs: one completion per execution, one verification per
    completion, and nothing but a passed verification or a reconciliation makes an action succeed. */
module Outcomes {
  import opened Common
  import opened Records
  import opened ActionInvariants
  import opened ActionPreservation
  import opened CaseSteps
  import opened StepRelations
  import opened TaskPreservation
  import opened RunnerTasks
  import opened System
  import ActionSteps
  import ActionDispatcher
  import ActionVerifications
  import Compensations
  import CompensationSteps
  import ResourceLocks
  import RunInvariants
  import TaskSteps
  import RunSteps
  import Investigations

  // ----- One completion ------------------------------------------------------------------------------

  predicate Completed(db: Db, a: ActionId, id: CompletionId) {
    a in db.executions && db.executions[a].completion == Some(id)
  }

  predicate CompCompleted(db: Db, a: ActionId, id: CompletionId) {
    a in db.compExecutions && db.compExecutions[a].completion == Some(id)
  }

  lemma GrownExecutions(db: Db, db': Db, a: ActionId)
    requires Grows(db, db') && a in db.actions
    ensures a in db'.actions
    ensures ExecutionGrows(CaseOf(db, a).execution, CaseOf(db', a).execution)
    ensures ExecutionGrows(CaseOf(db, a).compExecution, CaseOf(db', a).compExecution)
  {
    hide LocksGrow, Reaches, ExecutionGrows, CaseOf;
  }

  lemma CompletionIsKept(db: Db, db': Db, a: ActionId, id: CompletionId)
    requires Inv(db) && Grows(db, db')
    ensures Completed(db, a, id) ==> Completed(db', a, id)
    ensures CompCompleted(db, a, id) ==> CompCompleted(db', a, id)
  {
    hide Inv, Grows;
    TableFacts(db);
    if a in db.actions { GrownExecutions(db, db', a); }
  }

  lemma CompletionStays(cfg: Settings, steps: seq<Step>, i: nat, j: nat, a: ActionId, id: CompletionId)
    requires i <= j <= |steps|
    ensures Completed(At(cfg, steps, i), a, id) ==> Completed(At(cfg, steps, j), a, id)
    ensures CompCompleted(At(cfg, steps, i), a, id) ==> CompCompleted(At(cfg, steps, j), a, id)
  {
    hide Inv, Grows, State, Completed, CompCompleted, RunInvariants.RunsOk;
    Reachable(cfg, steps[..i]);
    GrowsAlong(cfg, steps, i, j);
    CompletionIsKept(At(cfg, steps, i), At(cfg, steps, j), a, id);
  }

  /** The completion request of a step, for an action or for its compensation. */
  predicate Completes(s: Step, a: ActionId, id: CompletionId) {
    s.OnAction? && s.action.Complete? && s.action.a == a && s.action.completion == id
  }

  predicate CompCompletes(s: Step, a: ActionId, id: CompletionId) {
    s.OnCompensation? && s.comp.Complete? && s.comp.a == a && s.comp.completion == id
  }

  lemma CompletionIsStored(cfg: Settings, db: Db, s: Step, a: ActionId, id: CompletionId)
    requires Completes(s, a, id) && Apply(cfg, db, s).Accepted?
    ensures Completed(Next(cfg, db, s), a, id)
  {
    hide ActionDispatcher.OwnershipError, ResourceLocks.LockOf, ActionDispatcher.SetAction;
    OwnedHasLock(db, a, s.action.runner, s.action.executionToken, s.action.token, s.action.now);
  }

  lemma OwnedHasLock(db: Db, a: ActionId, runner: RunnerId, x: Token, token: Token, now: Time)
    requires ActionDispatcher.OwnershipError(db, a, runner, x, token, now).None?
    ensures a in db.actions && a in db.executions && db.executions[a].status.Running?
    ensures ResourceLocks.LockOf(db, a).Some?
  {
  }

  lemma CompCompletionIsStored(cfg: Settings, db: Db, s: Step, a: ActionId, id: CompletionId)
    requires CompCompletes(s, a, id) && Apply(cfg, db, s).Accepted?
    ensures CompCompleted(Next(cfg, db, s), a, id)
  {
    hide Compensations.OwnershipError, ResourceLocks.LockOf;
    CompOwnedHasLock(db, a, s.comp.runner, s.comp.executionToken, s.comp.token, s.comp.now);
  }

  lemma CompOwnedHasLock(db: Db, a: ActionId, runner: RunnerId, x: Token, token: Token, now: Time)
    requires Compensations.OwnershipError(db, a, runner, x, token, now).None?
    ensures a in db.actions && a in db.compensations && a in db.compExecutions
    ensures db.compExecutions[a].status.CompRunning? && ResourceLocks.LockOf(db, a).Some?
  {
  }

  /** A completed execution answers its own completion id again without a change, and accepts no other. */
  lemma CompletedAnswers(cfg: Settings, db: Db, s: Step, a: ActionId, id: CompletionId, other: CompletionId)
    requires Inv(db) && Completed(db, a, id) && Completes(s, a, other)
    ensures if other == id then Apply(cfg, db, s) == Outcome.Replayed(db) else Apply(cfg, db, s).Refused?
  {
    hide Inv, LockOk, VerificationOk, CompensationOk, LockStateOk, ResourceLocks.LockOf;
    TableFacts(db);
    CaseFacts(db, a);
  }

  lemma CompCompletedAnswers(cfg: Settings, db: Db, s: Step, a: ActionId, id: CompletionId, other: CompletionId)
    requires Inv(db) && CompCompleted(db, a, id) && CompCompletes(s, a, other)
    ensures if other == id then Apply(cfg, db, s) == Outcome.Replayed(db) else Apply(cfg, db, s).Refused?
  {
    hide Inv, LockOk, VerificationOk, ExecutionOk, LockStateOk, ResourceLocks.LockOf;
    TableFacts(db);
    CaseFacts(db, a);
  }

  /** Exactly-once completion: after an accepted completion of an execution, the same completion id is for
      ever answered without any change and every other one is refused, whatever happens in between. */
  lemma CompletionHappensOnce(cfg: Settings, steps: seq<Step>, i: nat, j: nat, a: ActionId, id: CompletionId,
                              other: CompletionId)
    requires i < j < |steps| && Completes(steps[i], a, id) && Completes(steps[j], a, other)
    requires Apply(cfg, At(cfg, steps, i), steps[i]).Accepted?
    ensures var db := At(cfg, steps, j);
            if other == id then Apply(cfg, db, steps[j]) == Outcome.Replayed(db) else Apply(cfg, db, steps[j]).Refused?
  {
    hide Inv, State, Completed, CompCompleted, Completes, Apply, RunInvariants.RunsOk, Next;
    CompletionIsStored(cfg, At(cfg, steps, i), steps[i], a, id);
    AtNext(cfg, steps, i);
    CompletionStays(cfg, steps, i + 1, j, a, id);
    Reachable(cfg, steps[..j]);
    CompletedAnswers(cfg, At(cfg, steps, j), steps[j], a, id, other);
  }

  /** The same for compensations. */
  lemma CompensationCompletionHappensOnce(cfg: Settings, steps: seq<Step>, i: nat, j: nat, a: ActionId,
                                          id: CompletionId, other: CompletionId)
    requires i < j < |steps| && CompCompletes(steps[i], a, id) && CompCompletes(steps[j], a, other)
    requires Apply(cfg, At(cfg, steps, i), steps[i]).Accepted?
    ensures var db := At(cfg, steps, j);
            if other == id then Apply(cfg, db, steps[j]) == Outcome.Replayed(db) else Apply(cfg, db, steps[j]).Refused?
  {
    hide Inv, State, Completed, CompCompleted, CompCompletes, Apply, RunInvariants.RunsOk, Next;
    CompCompletionIsStored(cfg, At(cfg, steps, i), steps[i], a, id);
    AtNext(cfg, steps, i);
    CompletionStays(cfg, steps, i + 1, j, a, id);
    Reachable(cfg, steps[..j]);
    CompCompletedAnswers(cfg, At(cfg, steps, j), steps[j], a, id, other);
  }

  // ----- Unknown outcomes ---------------------------------------------------------------------------------

  predicate IsUnknown(db: Db, a: ActionId) {
    a in db.actions && db.actions[a].status.Unknown?
  }

  predicate Reconciles(s: Step, a: ActionId) {
    s.OnAction? && s.action.Reconcile? && s.action.a == a
  }

  lemma ReconcileTouchesOne(db: Db, a: ActionId, version: nat, succeeded: bool, now: Time, b: ActionId)
    requires Inv(db) && b in db.actions
    ensures var o := ActionDispatcher.Reconcile(db, a, version, succeeded, now);
            && b in After(db, o).actions && (b != a ==> After(db, o).actions[b] == db.actions[b])
            && (o.Refused? ==> After(db, o) == db)
            && (!o.Refused? ==> IsUnknown(db, a) && a in After(db, o).actions
                                && After(db, o).actions[a].status == if succeeded then Succeeded else Failed)
  {
    hide Inv, ActionDispatcher.Reconcile, Owns;
    TableFacts(db);
    var o := ActionDispatcher.Reconcile(db, a, version, succeeded, now);
    ReconcileAnswers(db, a, version, succeeded, now);
    if o.Accepted? { ReconcileTables(db, a, version, succeeded, now); }
  }

  lemma ReconcileAnswers(db: Db, a: ActionId, version: nat, succeeded: bool, now: Time)
    ensures var o := ActionDispatcher.Reconcile(db, a, version, succeeded, now); o.Accepted? || o.Refused?
  {
  }

  lemma LeavesUnknown(db: Db, db': Db, a: ActionId)
    requires LeavesOutcomes(db, db') && IsUnknown(db, a)
    ensures IsUnknown(db', a)
  {
  }

  lemma KeepsUnknown(db: Db, db': Db, a: ActionId)
    requires Keeps(db, db') && IsUnknown(db, a)
    ensures IsUnknown(db', a)
  {
    hide Inv, Exclusive, LocksGrow, CaseGrows;
    assert Verifies(CaseOf(db, a), CaseOf(db', a));
  }

  /** Only its reconciliation settles an action of unknown outcome. */
  lemma OnlyReconciliationSettles(cfg: Settings, db: Db, s: Step, a: ActionId)
    requires Inv(db) && IsUnknown(db, a) && !Reconciles(s, a)
    ensures IsUnknown(Next(cfg, db, s), a)
  {
    hide Inv, Progresses, LeavesOutcomes, Exclusive, Keeps, ActionTablesOnly, ActionSteps.TakesOver, Grows,
      ActionDispatcher.Reconcile, CompensationSteps.Apply, TaskSteps.Apply, RunSteps.Apply;
    match s
    case OnAction(action) =>
      if action.Reconcile? {
        ReconcileTouchesOne(db, action.a, action.version, action.succeeded, action.now, a);
      } else {
        ActionSteps.StepAdvances(cfg, db, action);
        LeavesUnknown(db, Next(cfg, db, s), a);
      }
    case OnCompensation(comp) => CompensationSteps.StepAdvances(cfg, db, comp); LeavesUnknown(db, Next(cfg, db, s), a);
    case OnTask(task) => TaskSteps.StepKeeps(cfg, db, task); KeepsUnknown(db, Next(cfg, db, s), a);
    case OnRun(run) => RunSteps.StepKeeps(cfg, db, run); KeepsUnknown(db, Next(cfg, db, s), a);
  }

  /** Once an execution's lease has expired into `unknown`, its outcome stays open until a reconciliation. */
  lemma {:induction false} UnknownUntilReconciled(cfg: Settings, steps: seq<Step>, i: nat, j: nat, a: ActionId)
    requires i <= j <= |steps| && IsUnknown(At(cfg, steps, i), a)
    requires forall k :: i <= k < j ==> !Reconciles(steps[k], a)
    ensures IsUnknown(At(cfg, steps, j), a)
    decreases j
  {
    hide Inv, State, Next, IsUnknown, Reconciles, RunInvariants.RunsOk;
    if i < j {
      UnknownUntilReconciled(cfg, steps, i, j - 1, a);
      Reachable(cfg, steps[..j-1]);
      AtNext(cfg, steps, j - 1);
      OnlyReconciliationSettles(cfg, At(cfg, steps, j - 1), steps[j-1], a);
    }
  }

  lemma UnknownNeverRuns(db: Db, db': Db, a: ActionId)
    requires Inv(db) && Inv(db') && Grows(db, db') && IsUnknown(db, a)
    ensures a in db'.actions && a in db'.executions && !db'.executions[a].status.Running?
    ensures db'.executions[a].completion.None? || !db'.executions[a].status.Running?
  {
    hide Inv, LocksGrow, LockOk, VerificationOk, CompensationOk, LockStateOk, ExecutionGrows;
    assert CaseGrows(CaseOf(db, a), CaseOf(db', a));
    CaseFacts(db', a);
  }

  /** A completion that arrives after the expiry never decides anything. */
  lemma LateCompletionDecidesNothing(cfg: Settings, steps: seq<Step>, i: nat, j: nat, a: ActionId, id: CompletionId)
    requires i <= j < |steps| && IsUnknown(At(cfg, steps, i), a) && Completes(steps[j], a, id)
    ensures !Apply(cfg, At(cfg, steps, j), steps[j]).Accepted?
  {
    hide Inv, State, Grows, Next, RunInvariants.RunsOk, ResourceLocks.LockOf;
    Reachable(cfg, steps[..i]);
    Reachable(cfg, steps[..j]);
    GrowsAlong(cfg, steps, i, j);
    UnknownNeverRuns(At(cfg, steps, i), At(cfg, steps, j), a);
  }

  // ----- Success ---------------------------------------------------------------------------------------------

  predicate HasSucceeded(db: Db, a: ActionId) {
    a in db.actions && db.actions[a].status.Succeeded?
  }

  /** The action was verifying and its verification has now passed with its task. */
  predicate PassedNow(db: Db, db': Db, a: ActionId) {
    && a in db.actions && db.actions[a].status.Verifying?
    && a in db'.verifications && db'.verifications[a].status.Passed?
    && db'.verifications[a].task in db'.tasks && db'.tasks[db'.verifications[a].task].status.TaskSucceeded?
  }

  lemma LeavesUnsucceeded(db: Db, db': Db, a: ActionId)
    requires LeavesOutcomes(db, db') && a in db.actions && !HasSucceeded(db, a)
    ensures !HasSucceeded(db', a)
  {
    assert LeavesOutcome(CaseOf(db, a), CaseOf(db', a));
  }

  lemma KeepsSuccess(db: Db, db': Db, a: ActionId)
    requires Keeps(db, db') && a in db.actions && !HasSucceeded(db, a) && HasSucceeded(db', a)
    ensures PassedNow(db, db', a)
  {
    hide Inv, Exclusive, LocksGrow, CaseGrows, LockOk, LockStateOk, CompensationOk, ExecutionOk;
    assert Verifies(CaseOf(db, a), CaseOf(db', a));
    CaseFacts(db', a);
  }

  /** The step reports the success of the action's verification task. */
  predicate ReportsSuccess(db: Db, s: Step, a: ActionId) {
    && s.OnTask? && s.task.Complete? && s.task.succeeded
    && a in db.verifications && db.verifications[a].task == s.task.t
  }

  /** No task succeeds. */
  ghost predicate NoneSucceeds(db: Db, db': Db) {
    forall t :: t in db'.tasks && db'.tasks[t].status.TaskSucceeded? ==>
      t in db.tasks && db.tasks[t].status.TaskSucceeded?
  }

  /** A task that is given back, failed and resolved, or cancelled. */
  lemma RowSucceedsNone(db: Db, t: TaskId, task: Task, now: Time)
    requires t in db.tasks && !task.status.TaskSucceeded?
    ensures var mid := SetTask(db, t, task);
            && NoneSucceeds(db, mid) && NoneSucceeds(db, ResolveTask(mid, t))
            && NoneSucceeds(db, ActionVerifications.FinalizeTask(mid, t, false, now))
            && NoneSucceeds(db, ActionVerifications.FinalizeTask(ResolveTask(mid, t), t, false, now))
  {
    hide ActionVerifications.FinalizeTask, ResolveTask;
    var mid := SetTask(db, t, task);
    ResolveIsOutside(mid, t);
    RunInvariants.FinalizeTables(mid, t, false, now);
    RunInvariants.FinalizeTables(ResolveTask(mid, t), t, false, now);
  }

  lemma EndingSucceedsNone(db: Db, how: Ending, t: TaskId)
    ensures NoneSucceeds(db, EndTask(db, how, t))
  {
    hide ActionVerifications.FinalizeTask, ResolveTask, NoneSucceeds;
    NothingSucceeds(db);
    if t in db.tasks {
      var now := if how.Withdrawal? then 0 else how.now;
      RowSucceedsNone(db, t, GivenBack(db.tasks[t]), now);
      RowSucceedsNone(db, t, GivenBack(db.tasks[t]).(runner := None), now);
      RowSucceedsNone(db, t, db.tasks[t].(status := TaskCancelled, token := None, lease := None), now);
    }
  }

  lemma NothingSucceeds(db: Db)
    ensures NoneSucceeds(db, db)
  {
  }

  lemma {:induction false} EndAllSucceedsNone(db: Db, how: Ending, ids: seq<TaskId>)
    ensures NoneSucceeds(db, EndAll(db, how, ids))
  {
    hide EndTask;
    if ids != [] {
      EndAllSucceedsNone(db, how, ids[..|ids|-1]);
      EndingSucceedsNone(EndAll(db, how, ids[..|ids|-1]), how, ids[|ids|-1]);
    }
  }

  lemma CompletionSucceedsByReport(db: Db, u: TaskId, runner: RunnerId, id: CompletionId, token: Token,
                                   succeeded: bool, now: Time, t: TaskId)
    requires t in db.tasks ==> !db.tasks[t].status.TaskSucceeded?
    ensures var db' := After(db, Complete(db, u, runner, id, token, succeeded, now));
            t in db'.tasks && db'.tasks[t].status.TaskSucceeded? ==> u == t && succeeded
  {
    hide ActionVerifications.FinalizeTask, ResolveTask;
    if Complete(db, u, runner, id, token, succeeded, now).Accepted? {
      var done := db.tasks[u].(status := if succeeded then TaskSucceeded else TaskFailed,
                               completion := Some(id), lease := None);
      RunInvariants.FinalizeTables(SetTask(db, u, done), u, succeeded, now);
      ResolveIsOutside(ActionVerifications.FinalizeTask(SetTask(db, u, done), u, succeeded, now), u);
    }
  }

  /** Only a completion makes a task succeed: its own, with that result. */
  lemma TasksSucceedByReport(cfg: Settings, db: Db, s: TaskSteps.TaskStep, t: TaskId)
    requires var db' := After(db, TaskSteps.Apply(cfg, db, s));
             t in db'.tasks && db'.tasks[t].status.TaskSucceeded?
    requires t in db.tasks ==> !db.tasks[t].status.TaskSucceeded?
    ensures s.Complete? && s.t == t && s.succeeded
  {
    hide EndAll, Complete;
    match s
    case Claim(runner, token, expired, candidate, now) => EndAllSucceedsNone(db, Lapse(now), expired);
    case LoseRunner(runner, ids, now) => EndAllSucceedsNone(db, Loss(runner, now), ids);
    case Withdraw(ids) => EndAllSucceedsNone(db, Withdrawal, ids);
    case Complete(u, runner, completion, token, succeeded, now) =>
      CompletionSucceedsByReport(db, u, runner, completion, token, succeeded, now, t);
    case _ =>
  }

  lemma CheckpointsLeaveActions(db: Db, r: RunId, id: ExecutionId, version: nat, c: Content, references: bool,
                                writer: Option<Owner>)
    ensures After(db, Investigations.WriteCheckpoint(db, r, id, version, c, references, writer)).actions == db.actions
  {
    hide Investigations.CheckpointError;
  }

  lemma ExecutorLeavesActions(db: Db, r: RunId, owner: Owner, id: ExecutionId, c: Content, references: bool,
                              i: Investigations.Interrupt)
    ensures After(db, Investigations.ExecutorCheckpoint(db, r, owner, id, c, references, i)).actions == db.actions
  {
    hide Investigations.WriteCheckpoint;
    if r in db.runs {
      CheckpointsLeaveActions(db, r, id, db.runs[r].version, c, references, Some(owner));
    }
  }

  lemma TransitionsLeaveActions(db: Db, r: RunId, version: nat, target: RunStatus)
    ensures After(db, Investigations.Transition(db, r, version, target)).actions == db.actions
  {
  }

  lemma RunStepsLeaveActions(cfg: Settings, db: Db, s: RunSteps.RunStep)
    ensures After(db, RunSteps.Apply(cfg, db, s)).actions == db.actions
  {
    hide Investigations.WriteCheckpoint, Investigations.ExecutorCheckpoint, Investigations.Transition;
    match s
    case Write(r, id, version, c, references) => CheckpointsLeaveActions(db, r, id, version, c, references, None);
    case ExecutorWrite(r, owner, id, c, references, i) => ExecutorLeavesActions(db, r, owner, id, c, references, i);
    case Transition(r, version, target) => TransitionsLeaveActions(db, r, version, target);
    case Finish(r, owner, target) =>
      if r in db.runs { TransitionsLeaveActions(db, r, db.runs[r].version, target); }
    case _ =>
  }

  lemma VerifyingTask(db: Db, db': Db, a: ActionId)
    requires Inv(db) && Keeps(db, db') && PassedNow(db, db', a)
    ensures a in db.verifications && db'.verifications[a].task == db.verifications[a].task
    ensures db.verifications[a].task in db.tasks && !db.tasks[db.verifications[a].task].status.TaskSucceeded?
  {
    hide Inv, Exclusive, LocksGrow, LockOk, LockStateOk, CompensationOk, ExecutionOk, ExecutionGrows, Reaches;
    assert Verifies(CaseOf(db, a), CaseOf(db', a));
    CaseFacts(db, a);
    VerificationTask(db, a);
  }

  /** An action becomes successful only by the report of its verification task's success, which passes the
      verification, or by the reconciliation of an unknown outcome as succeeded. */
  lemma SuccessHasACause(cfg: Settings, db: Db, s: Step, a: ActionId)
    requires Inv(db) && a in db.actions && !HasSucceeded(db, a) && HasSucceeded(Next(cfg, db, s), a)
    ensures (ReportsSuccess(db, s, a) && PassedNow(db, Next(cfg, db, s), a))
            || (Reconciles(s, a) && s.action.succeeded && IsUnknown(db, a))
  {
    hide Inv, Progresses, LeavesOutcomes, Exclusive, Keeps, ActionTablesOnly, ActionSteps.TakesOver, Grows, PassedNow,
      ActionDispatcher.Reconcile, CompensationSteps.Apply, TaskSteps.Apply, RunSteps.Apply;
    match s
    case OnAction(action) =>
      if action.Reconcile? {
        ReconcileTouchesOne(db, action.a, action.version, action.succeeded, action.now, a);
      } else {
        ActionSteps.StepAdvances(cfg, db, action);
        LeavesUnsucceeded(db, Next(cfg, db, s), a);
      }
    case OnCompensation(comp) =>
      CompensationSteps.StepAdvances(cfg, db, comp);
      LeavesUnsucceeded(db, Next(cfg, db, s), a);
    case OnTask(task) => TaskSuccess(cfg, db, task, a);
    case OnRun(run) => RunStepsLeaveActions(cfg, db, run);
  }

  lemma TaskSuccess(cfg: Settings, db: Db, task: TaskSteps.TaskStep, a: ActionId)
    requires Inv(db) && a in db.actions && !HasSucceeded(db, a) && HasSucceeded(Next(cfg, db, OnTask(task)), a)
    ensures ReportsSuccess(db, OnTask(task), a) && PassedNow(db, Next(cfg, db, OnTask(task)), a)
  {
    hide Inv, Keeps, TaskSteps.Apply;
    var db' := Next(cfg, db, OnTask(task));
    TaskSteps.StepKeeps(cfg, db, task);
    KeepsSuccess(db, db', a);
    VerifyingTask(db, db', a);
    TasksSucceedByReport(cfg, db, task, db.verifications[a].task);
  }

  // ----- Records of a verifying action -----------------------------------------------------------------------

  /** Record agreement: in every reachable state a verifying action has an applied execution, owns its
      resource's frozen unreleased lock, and has an open verification with exactly one task, which is queued
      with attempts left or leased: it is never stranded. */
  lemma VerifyingIsNeverStranded(cfg: Settings, steps: seq<Step>, a: ActionId)
    requires var db := State(cfg, steps); a in db.actions && db.actions[a].status.Verifying?
    ensures var db := State(cfg, steps);
            var r := db.actions[a].resource;
            && a in db.executions && db.executions[a].status.Applied?
            && r in db.locks && db.locks[r].owner == a && db.locks[r].frozen && !db.locks[r].released
            && db.locks[r].token == db.executions[a].token
            && a in db.verifications && !ActionVerifications.Terminal(db.verifications[a])
            && var t := db.verifications[a].task;
               && t in db.tasks && db.tasks[t].verification == Some(a) && Live(db.tasks[t])
               && (db.tasks[t].status.TaskQueued? ==> db.tasks[t].attempt < db.tasks[t].maxAttempts)
               && (forall u :: u in db.tasks && db.tasks[u].verification == Some(a) ==> u == t)
  {
    hide State, LockOk, CompensationOk, RunInvariants.RunsOk, Inv;
    Reachable(cfg, steps);
    var db := State(cfg, steps);
    CaseFacts(db, a);
    VerificationTask(db, a);
    forall u | u in db.tasks && db.tasks[u].verification == Some(a)
      ensures u == db.verifications[a].task
    {
      TaskFacts(db, u);
    }
  }

  /** While a runner holds the task of a verification, the verification is running and its action verifying. */
  lemma LeasedVerificationIsRunning(cfg: Settings, steps: seq<Step>, t: TaskId)
    requires var db := State(cfg, steps);
             t in db.tasks && db.tasks[t].verification.Some? && db.tasks[t].status.TaskLeased?
    ensures var db := State(cfg, steps);
            var a := db.tasks[t].verification.value;
            && a in db.verifications && db.verifications[a].task == t && db.verifications[a].status.Checking?
            && a in db.actions && db.actions[a].status.Verifying?
  {
    hide State, LockOk, CompensationOk, RunInvariants.RunsOk, Inv;
    Reachable(cfg, steps);
    LiveTaskCase(State(cfg, steps), t);
    CaseFacts(State(cfg, steps), State(cfg, steps).tasks[t].verification.value);
  }

  /** A settled action stays as it is; so does one that was compensated or escalated. */
  lemma SettledStays(cfg: Settings, steps: seq<Step>, i: nat, j: nat, a: ActionId)
    requires i <= j <= |steps| && a in At(cfg, steps, i).actions
    requires var s := At(cfg, steps, i).actions[a].status;
             s.Succeeded? || s.Failed? || s.Cancelled? || s.Compensated? || s.Escalated?
    ensures a in At(cfg, steps, j).actions
    ensures At(cfg, steps, j).actions[a].status == At(cfg, steps, i).actions[a].status
  {
    hide Inv, State, LocksGrow, ExecutionGrows, RunInvariants.RunsOk;
    GrowsAlong(cfg, steps, i, j);
    assert CaseGrows(CaseOf(At(cfg, steps, i), a), CaseOf(At(cfg, steps, j), a));
  }

  /** An execution never gets a second verification: the first one keeps its task for ever. */
  lemma VerificationIsFixed(cfg: Settings, steps: seq<Step>, i: nat, j: nat, a: ActionId)
    requires i <= j <= |steps| && a in At(cfg, steps, i).verifications
    ensures a in At(cfg, steps, j).verifications
    ensures At(cfg, steps, j).verifications[a].task == At(cfg, steps, i).verifications[a].task
  {
    hide Inv, State, LocksGrow, ExecutionGrows, Reaches, RunInvariants.RunsOk;
    GrowsAlong(cfg, steps, i, j);
    Reachable(cfg, steps[..i]);
    TableFacts(At(cfg, steps, i));
    assert CaseGrows(CaseOf(At(cfg, steps, i), a), CaseOf(At(cfg, steps, j), a));
  }
}
