/** The steps on one action as functions of its case, and why they keep the case right. */
module CaseSteps {
  import opened Common
  import opened Records
  import opened ActionInvariants
  import ActionVerifications
  import opened RunnerTasks

  function SetStatus(c: Case, s: ActionStatus): Case {
    c.(action := c.action.(status := s, version := c.action.version + 1))
  }

  function Freed(lock: Lock, now: Time): Lock {
    lock.(released := true, expires := now)
  }

  predicate Owns(a: ActionId, c: Case) {
    c.lock.Some? && c.lock.value.owner == a && !c.lock.value.released
  }

  /** What a step has to keep of a case: its own invariant and, if the leases allow, exclusion. */
  predicate Right(a: ActionId, c: Case) {
    CaseOk(a, c) && ExclusiveCase(a, c)
  }

  /** Neither settles an action whose outcome is unknown nor makes an action succeed. */
  predicate LeavesOutcome(c: Case, c': Case) {
    && (c.action.status.Unknown? ==> c'.action.status.Unknown?)
    && (c'.action.status.Succeeded? ==> c.action.status.Succeeded?)
  }

  /** Only a verifying action changes, and it succeeds only together with its verification. */
  predicate Verifies(c: Case, c': Case) {
    && CaseGrows(c, c') && c'.compensation == c.compensation && c'.compExecution == c.compExecution
    && if c.action.status.Verifying? then
         var s := c'.action.status;
         (s.Verifying? || s.Succeeded? || s.VerificationFailed?)
         && (s.Succeeded? ==> c'.verification.Some? && c'.verification.value.status.Passed?)
       else c'.action == c.action && c'.execution == c.execution && c'.verification == c.verification
  }

  predicate Steps(c: Case, c': Case) {
    CaseGrows(c, c') && LeavesOutcome(c, c')
  }

  predicate StepsTo(a: ActionId, c: Case, c': Case) {
    Right(a, c') && Steps(c, c')
  }

  lemma Cancelled(a: ActionId, c: Case, now: Time)
    requires CaseOk(a, c) && c.action.status.Ready?
    ensures var d := SetStatus(c, ActionStatus.Cancelled);
            StepsTo(a, c, if Owns(a, c) then d.(lock := Some(Freed(c.lock.value, now))) else d)
  {
  }

  function Acquired(a: ActionId, c: Case, expires: Time): Case {
    c.(lock := Some(if c.lock.None? then Lock(a, 1, expires, false, false)
                    else c.lock.value.(owner := a, token := c.lock.value.token + 1,
                                       expires := expires, released := false)),
       grants := c.grants + [a])
  }

  lemma AcquiredIsRight(a: ActionId, c: Case, expires: Time)
    requires CaseOk(a, c) && c.action.status.Ready?
    requires c.lock.None? ==> c.grants == []
    requires c.lock.Some? ==> !c.lock.value.frozen
    ensures StepsTo(a, c, Acquired(a, c, expires))
  {
  }

  lemma LockKept(a: ActionId, c: Case, expires: Time, released: bool)
    requires CaseOk(a, c) && c.action.status.Ready? && Owns(a, c)
    ensures StepsTo(a, c, c.(lock := Some(c.lock.value.(expires := expires, released := released))))
  {
  }

  function Dispatched(c: Case, e: Execution<ActionStatus>): Case {
    SetStatus(c, Dispatching).(execution := Some(e))
  }

  lemma DispatchedIsRight(a: ActionId, c: Case, e: Execution<ActionStatus>)
    requires CaseOk(a, c) && c.action.status.Ready? && c.lock.Some? && c.lock.value.owner == a
    requires e.status.Dispatching? && e.lease.None? && e.completion.None? && e.token == c.lock.value.token
    requires 0 < |c.grants| && c.grants[|c.grants| - 1] == a
    ensures StepsTo(a, c, Dispatched(c, e))
  {
  }

  function Claimed(c: Case, lease: Time, expires: Time): Case
    requires c.execution.Some? && c.lock.Some?
  {
    SetStatus(c, Running).(execution := Some(c.execution.value.(status := Running, lease := Some(lease))),
                           lock := Some(c.lock.value.(expires := expires)))
  }

  lemma ClaimedIsRight(a: ActionId, c: Case, lease: Time, expires: Time)
    requires CaseOk(a, c) && Holds(a, c) && c.execution.value.status.Dispatching?
    ensures CaseOk(a, Claimed(c, lease, expires)) && Steps(c, Claimed(c, lease, expires))
    ensures lease <= expires ==> ExclusiveCase(a, Claimed(c, lease, expires))
  {
  }

  function Renewed(c: Case, lease: Time, expires: Time): Case
    requires c.execution.Some? && c.lock.Some?
  {
    c.(execution := Some(c.execution.value.(lease := Some(lease))), lock := Some(c.lock.value.(expires := expires)))
  }

  lemma RenewedIsRight(a: ActionId, c: Case, lease: Time, expires: Time)
    requires CaseOk(a, c) && Holds(a, c) && c.execution.value.status.Running?
    ensures CaseOk(a, Renewed(c, lease, expires)) && Steps(c, Renewed(c, lease, expires))
    ensures lease <= expires ==> ExclusiveCase(a, Renewed(c, lease, expires))
  {
  }

  function Completed(a: ActionId, c: Case, completion: CompletionId, succeeded: bool, task: TaskId, now: Time): Case
    requires c.execution.Some? && c.lock.Some?
  {
    var e := c.execution.value;
    SetStatus(c, if succeeded then Verifying else Failed).(
      execution :=
        Some(e.(status := if succeeded then Applied else Failed, completion := Some(completion), lease := None)),
      lock := Some(if succeeded then c.lock.value.(frozen := true, expires := now) else Freed(c.lock.value, now)),
      verification := if succeeded then Some(Verification(Queued, false, task)) else None,
      task := if succeeded then Some(Task(None, Some(a), None, Some(e.runner), TaskQueued, 0,
                                          ActionVerifications.VERIFICATION_ATTEMPTS, None, None, None)) else None)
  }

  lemma CompletedIsRight(a: ActionId, c: Case, completion: CompletionId, succeeded: bool, task: TaskId, now: Time)
    requires CaseOk(a, c) && Holds(a, c) && c.execution.value.status.Running?
    ensures c.verification.None?
    ensures StepsTo(a, c, Completed(a, c, completion, succeeded, task, now))
  {
  }

  function Reconciled(a: ActionId, c: Case, succeeded: bool, now: Time): Case
    requires c.execution.Some?
  {
    var target := if succeeded then Succeeded else Failed;
    var d := SetStatus(c, target).(execution := Some(c.execution.value.(status := target)));
    if Owns(a, c) then d.(lock := Some(Freed(c.lock.value, now).(frozen := false))) else d
  }

  lemma ReconciledIsRight(a: ActionId, c: Case, succeeded: bool, now: Time)
    requires CaseOk(a, c) && c.action.status.Unknown?
    ensures c.execution.Some? && Right(a, Reconciled(a, c, succeeded, now))
    ensures CaseGrows(c, Reconciled(a, c, succeeded, now))
  {
  }

  /** Recovery of expired executions, seen from one case: `mine` says that this action's execution lapsed,
      `owners` that the lock owner's did. */
  function Recovered(c: Case, mine: bool, owners: bool, now: Time): Case {
    var d := if owners && c.lock.Some? && !c.lock.value.released
             then c.(lock := Some(c.lock.value.(frozen := true, expires := now))) else c;
    if mine && c.execution.Some?
    then SetStatus(d, Unknown).(execution := Some(c.execution.value.(status := Unknown, lease := None))) else d
  }

  lemma RecoveredIsRight(a: ActionId, c: Case, mine: bool, owners: bool, now: Time)
    requires CaseOk(a, c) && (mine ==> c.execution.Some? && c.execution.value.status.Running?)
    requires c.lock.Some? && c.lock.value.owner == a ==> owners == mine
    ensures CaseOk(a, Recovered(c, mine, owners, now)) && Steps(c, Recovered(c, mine, owners, now))
    ensures ExclusiveCase(a, c) ==> ExclusiveCase(a, Recovered(c, mine, owners, now))
  {
  }

  // ----- Compensations -------------------------------------------------------------------------------

  lemma CompensationRequested(a: ActionId, c: Case, comp: Compensation)
    requires CaseOk(a, c) && c.action.status.VerificationFailed? && c.compensation.None? && comp.status.CompPending?
    ensures CaseOk(a, c.(compensation := Some(comp))) && Steps(c, c.(compensation := Some(comp)))
  {
  }

  function SetComp(c: Case, s: CompensationStatus): Case
    requires c.compensation.Some?
  {
    c.(compensation := Some(c.compensation.value.(status := s, version := c.compensation.value.version + 1)))
  }

  lemma CompensationDecided(a: ActionId, c: Case, approved: bool)
    requires CaseOk(a, c) && c.compensation.Some? && c.compensation.value.status.CompPending?
    ensures var c' := SetComp(c, if approved then CompApproved else CompRejected); CaseOk(a, c') && Steps(c, c')
  {
  }

  function CompDispatched(c: Case, e: Execution<CompensationStatus>): Case
    requires c.compensation.Some?
  {
    SetStatus(SetComp(c, CompDispatching), Compensating).(compExecution := Some(e))
  }

  lemma CompDispatchedIsRight(a: ActionId, c: Case, e: Execution<CompensationStatus>)
    requires CaseOk(a, c) && Owns(a, c) && c.compensation.Some? && c.compensation.value.status.CompApproved?
    requires e.status.CompDispatching? && e.lease.None? && e.completion.None? && e.token == c.lock.value.token
    ensures StepsTo(a, c, CompDispatched(c, e))
  {
  }

  function CompClaimed(c: Case, lease: Time, expires: Time): Case
    requires c.compExecution.Some? && c.compensation.Some? && c.lock.Some?
  {
    SetComp(c, CompRunning).(
      compExecution := Some(c.compExecution.value.(status := CompRunning, lease := Some(lease))),
      lock := Some(c.lock.value.(expires := expires)))
  }

  lemma CompClaimedIsRight(a: ActionId, c: Case, lease: Time, expires: Time)
    requires CaseOk(a, c) && Owns(a, c) && c.compExecution.Some? && c.compExecution.value.status.CompDispatching?
    ensures c.compensation.Some? && StepsTo(a, c, CompClaimed(c, lease, expires))
  {
  }

  function CompRenewed(c: Case, lease: Time, expires: Time): Case
    requires c.compExecution.Some? && c.lock.Some?
  {
    c.(compExecution := Some(c.compExecution.value.(lease := Some(lease))),
       lock := Some(c.lock.value.(expires := expires)))
  }

  lemma CompRenewedIsRight(a: ActionId, c: Case, lease: Time, expires: Time)
    requires CaseOk(a, c) && Owns(a, c) && c.compExecution.Some? && c.compExecution.value.status.CompRunning?
    ensures StepsTo(a, c, CompRenewed(c, lease, expires))
  {
  }

  function CompCompleted(c: Case, completion: CompletionId, succeeded: bool, now: Time): Case
    requires c.compExecution.Some? && c.compensation.Some? && c.lock.Some?
  {
    SetStatus(SetComp(c, if succeeded then CompSucceeded else CompEscalated),
              if succeeded then Compensated else Escalated).(
      compExecution := Some(c.compExecution.value.(status := if succeeded then CompSucceeded else CompFailed,
                                                   completion := Some(completion), lease := None)),
      lock := Some(if succeeded then Freed(c.lock.value, now).(frozen := false)
                   else c.lock.value.(frozen := true, expires := now)))
  }

  lemma CompCompletedIsRight(a: ActionId, c: Case, completion: CompletionId, succeeded: bool, now: Time)
    requires CaseOk(a, c) && Owns(a, c) && c.compExecution.Some? && c.compExecution.value.status.CompRunning?
    ensures c.compensation.Some? && StepsTo(a, c, CompCompleted(c, completion, succeeded, now))
  {
  }

  lemma CompEscalatedIsRight(a: ActionId, c: Case)
    requires CaseOk(a, c) && c.compensation.Some?
    requires var s := c.compensation.value.status;
             s.CompApproved? || s.CompRejected? || s.CompFailed? || s.CompUnknown?
    ensures StepsTo(a, c, SetStatus(SetComp(c, CompEscalated), Escalated))
  {
  }

  function CompRecovered(c: Case, mine: bool, owners: bool, now: Time): Case {
    var d := if owners && c.lock.Some? && !c.lock.value.released
             then c.(lock := Some(c.lock.value.(frozen := true, expires := now))) else c;
    if mine && c.compExecution.Some? && c.compensation.Some?
    then SetComp(d, CompUnknown).(compExecution := Some(c.compExecution.value.(status := CompUnknown, lease := None)))
    else d
  }

  lemma CompRecoveredIsRight(a: ActionId, c: Case, mine: bool, owners: bool, now: Time)
    requires CaseOk(a, c) && (mine ==> c.compExecution.Some? && c.compExecution.value.status.CompRunning?)
    requires c.lock.Some? && c.lock.value.owner == a ==> owners == mine
    ensures CaseOk(a, CompRecovered(c, mine, owners, now))
    ensures Steps(c, CompRecovered(c, mine, owners, now))
    ensures ExclusiveCase(a, c) ==> ExclusiveCase(a, CompRecovered(c, mine, owners, now))
  {
  }

  // ----- Verification tasks -----------------------------------------------------------------------------

  /** The task's row changes while it stays live. */
  lemma TaskKeptLive(a: ActionId, c: Case, task: Task, v: Verification)
    requires CaseOk(a, c) && c.verification.Some?
      && (c.verification.value.status.Queued? || c.verification.value.status.Checking?)
    requires Live(task) && task.verification == Some(a) && task.planStep.None? && task.wait.None?
    requires v.task == c.verification.value.task && (v.status.Queued? || v.status.Checking?)
    requires v.status.Queued? ==> task.status.TaskQueued?
    ensures var c' := c.(task := Some(task), verification := Some(v));
            CaseOk(a, c') && Verifies(c, c') && (ExclusiveCase(a, c) ==> ExclusiveCase(a, c'))
  {
  }

  function Decided(a: ActionId, c: Case, task: Task, passed: bool, now: Time): Case
    requires c.verification.Some? && c.execution.Some?
  {
    var target := if passed then Succeeded else VerificationFailed;
    var d := SetStatus(c, target).(
      task := Some(task),
      verification := Some(c.verification.value.(status := if passed then Passed else NotPassed,
                                                 compensationRequired := !passed && c.action.rollback.Some?)),
      execution := Some(c.execution.value.(status := target)));
    if !Owns(a, c) then d
    else d.(lock := Some(if passed then Freed(c.lock.value, now).(frozen := false)
                         else c.lock.value.(frozen := true, expires := now)))
  }

  lemma DecidedIsRight(a: ActionId, c: Case, task: Task, passed: bool, now: Time)
    requires CaseOk(a, c) && c.verification.Some?
      && (c.verification.value.status.Queued? || c.verification.value.status.Checking?)
    requires task.verification == Some(a) && task.planStep.None? && task.wait.None?
    requires if passed then task.status.TaskSucceeded? else task.status.TaskFailed?
    ensures c.execution.Some? && Right(a, Decided(a, c, task, passed, now))
    ensures Verifies(c, Decided(a, c, task, passed, now))
  {
  }
}
