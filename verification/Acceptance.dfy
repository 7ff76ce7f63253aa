/** Exactly when each request is accepted, in terms of the rows before it: recovery steps inside a request, error orders
    and lookups are worked out. */
module Acceptance {
  import opened Common
  import opened InvestigationGraph
  import opened Records
  import opened System
  import ActionDispatcher
  import ActionSteps
  import ActionVerifications
  import Compensations
  import CompensationSteps
  import Effects
  import InvestigationHitl
  import Investigations
  import ResourceLocks
  import RunnerTasks
  import opened RunServices
  import RunSteps
  import TaskSteps

  // ----- Actions and compensations ---------------------------------------------------------------------------

  /** The runner is executing: it names both tokens of the execution, and its lease has not ended. */
  predicate Executes<S(==)>(executions: map<ActionId, Execution<S>>, running: S, a: ActionId, runner: RunnerId,
                            x: Token, token: Token, now: Time)
  {
    && a in executions && executions[a].status == running && executions[a].runner == runner
    && executions[a].executionToken == x && executions[a].token == token
    && executions[a].lease.Some? && now < executions[a].lease.value
  }

  /** The action owns the unreleased lock of its resource under a token. */
  predicate HoldsLock(db: Db, a: ActionId, token: Token) {
    a in db.actions
    && var r := db.actions[a].resource;
       r in db.locks && db.locks[r].owner == a && !db.locks[r].released && db.locks[r].token == token
  }

  /** Nobody has, or may still need, the resource: it was never locked, or its last lock was let go or ran out and is
      not kept for a reconciliation. */
  predicate IsFree(db: Db, r: ResourceId, now: Time) {
    r !in db.locks || (!db.locks[r].frozen && (db.locks[r].released || db.locks[r].expires <= now))
  }

  /** The owner's execution has outlived its lease; recovery keeps the lock of such an action. */
  predicate OwnerLapsed(db: Db, r: ResourceId, now: Time) {
    && r in db.locks && !db.locks[r].released
    && var b := db.locks[r].owner;
       b in db.executions && db.executions[b].status.Running?
       && db.executions[b].lease.Some? && db.executions[b].lease.value <= now
  }

  predicate HasLiveLock(db: Db, a: ActionId, r: ResourceId, now: Time) {
    r in db.locks && db.locks[r].owner == a && !db.locks[r].released && now < db.locks[r].expires
  }

  predicate IsReady(db: Db, a: ActionId) {
    a in db.actions && db.actions[a].status.Ready?
  }

  predicate AdmitsAction(db: Db, s: ActionSteps.ActionStep) {
    match s
    case CreateAction(a, action) => a !in db.actions
    case CancelAction(a, version, now) => IsReady(db, a) && db.actions[a].version == version
    case AcquireLock(a, authorised, now) =>
      && IsReady(db, a) && authorised
      && IsFree(db, db.actions[a].resource, now) && !HasLiveLock(db, a, db.actions[a].resource, now)
    case RenewLock(a, token, now) =>
      IsReady(db, a) && HoldsLock(db, a, token) && now < db.locks[db.actions[a].resource].expires
    case ReleaseLock(a, token, now) =>
      IsReady(db, a) && HoldsLock(db, a, token) && now < db.locks[db.actions[a].resource].expires
    case Dispatch(a, authorised, selected, now) =>
      && IsReady(db, a) && a !in db.executions && authorised && selected.Some?
      && (HasLiveLock(db, a, db.actions[a].resource, now)
          || (IsFree(db, db.actions[a].resource, now) && !OwnerLapsed(db, db.actions[a].resource, now)))
    case Claim(runner, candidate, now) =>
      && candidate.Some?
      && var a := candidate.value;
         && a in db.executions && db.executions[a].status.Dispatching? && db.executions[a].runner == runner
         && HoldsLock(db, a, db.executions[a].token)
    case Renew(a, runner, x, token, now) =>
      Executes(db.executions, ActionStatus.Running, a, runner, x, token, now) && HoldsLock(db, a, token)
    case Complete(a, runner, id, x, token, succeeded, task, now) =>
      && Executes(db.executions, ActionStatus.Running, a, runner, x, token, now) && HoldsLock(db, a, token)
      && db.executions[a].completion != Some(id) && (succeeded ==> task !in db.tasks)
    case Reconcile(a, version, succeeded, now) =>
      && a in db.actions && a in db.executions
      && db.actions[a].status.Unknown? && db.actions[a].version == version
    case Recover(now) => true
  }

  /** Recovery leaves an action that is not running alone, and freezes exactly the locks of lapsed executions. */
  lemma RecoveredRows(db: Db, a: ActionId, now: Time)
    ensures var after := ActionDispatcher.RecoverExpired(db, now);
            && after.actions.Keys == db.actions.Keys && after.executions.Keys == db.executions.Keys
            && after.locks.Keys == db.locks.Keys
            && (a in db.actions ==> after.actions[a].resource == db.actions[a].resource)
            && (a in db.actions && a !in db.executions ==> after.actions[a] == db.actions[a])
            && (a in db.executions && !db.executions[a].status.Running? ==> after.executions[a] == db.executions[a])
            && (a in db.executions && db.executions[a].status.Running? ==>
                  !after.executions[a].status.Dispatching?)
            && forall r :: r in db.locks ==>
                 after.locks[r] == if OwnerLapsed(db, r, now) then db.locks[r].(frozen := true, expires := now)
                                   else db.locks[r]
  {
  }

  lemma DispatchAccepted(cfg: Settings, db: Db, a: ActionId, authorised: bool, selected: Option<RunnerId>, now: Time)
    ensures ActionDispatcher.Dispatch(cfg, db, a, authorised, selected, now).Accepted?
            <==> AdmitsAction(db, ActionSteps.Dispatch(a, authorised, selected, now))
  {
    hide ActionDispatcher.RecoverExpired;
    RecoveredRows(db, a, now);
  }

  lemma ClaimAccepted(cfg: Settings, db: Db, runner: RunnerId, candidate: Option<ActionId>, now: Time)
    ensures ActionDispatcher.Claim(cfg, db, runner, candidate, now).Accepted?
            <==> AdmitsAction(db, ActionSteps.Claim(runner, candidate, now))
  {
    hide ActionDispatcher.RecoverExpired;
    if candidate.Some? { RecoveredRows(db, candidate.value, now); }
  }

  lemma ActionAccepted(cfg: Settings, db: Db, s: ActionSteps.ActionStep)
    ensures ActionSteps.Apply(cfg, db, s).Accepted? <==> AdmitsAction(db, s)
  {
    match s
    case Dispatch(a, authorised, selected, now) =>
      DispatchAccepted(cfg, db, a, authorised, selected, now);
    case Claim(runner, candidate, now) =>
      ClaimAccepted(cfg, db, runner, candidate, now);
    case _ => hide ActionDispatcher.RecoverExpired;
  }

  /** The wait a decision resolves is the one that waits for its subject. */
  predicate FindsWait(db: Db, subject: Subject, run: Option<RunId>) {
    match run
    case None => forall w :: w in db.waits && db.waits[w].status.Waiting? ==> !(w.HitlWait? && w.subject == subject)
    case Some(r) =>
      r in db.runs && HitlWait(r, subject) in db.waits && db.waits[HitlWait(r, subject)].status.Waiting?
  }

  /** The requester may not approve in time, nor anybody under a policy that no longer allows it. */
  predicate MayDecide(db: Db, a: ActionId, approve: bool, version: nat, decider: Option<nat>, allowed: bool, now: Time)
  {
    && a in db.compensations && db.compensations[a].status.CompPending? && db.compensations[a].version == version
    && (approve && now < db.compensations[a].expires ==> decider != Some(db.compensations[a].requestedBy) && allowed)
  }

  predicate AdmitsCompensation(db: Db, s: CompensationSteps.CompensationStep) {
    match s
    case Request(a, parameters, key, holder, actor, expires) =>
      && a in db.actions && db.actions[a].status.VerificationFailed?
      && a in db.verifications && db.verifications[a].compensationRequired
      && db.actions[a].rollback == Some(db.actions[a].capability) && parameters == db.actions[a].parameters
      && holder.None? && a !in db.compensations
    case Decide(a, approve, version, decider, allowed, run, now) =>
      MayDecide(db, a, approve, version, decider, allowed, now) && FindsWait(db, Subject(CompensationSubject, a), run)
    case Dispatch(a, version, selected, now) =>
      && a in db.compensations && db.compensations[a].status.CompApproved? && db.compensations[a].version == version
      && a !in db.compExecutions && now < db.compensations[a].expires && selected.Some?
      && a in db.actions && db.actions[a].resource in db.locks
      && var lock := db.locks[db.actions[a].resource];
         lock.owner == a && !lock.released && lock.frozen
    case Claim(runner, candidate, now) =>
      && candidate.Some?
      && var a := candidate.value;
         && a in db.compensations && a in db.compExecutions && db.compExecutions[a].status.CompDispatching?
         && db.compExecutions[a].runner == runner && HoldsLock(db, a, db.compExecutions[a].token)
    case Renew(a, runner, x, token, now) =>
      && Executes(db.compExecutions, CompRunning, a, runner, x, token, now) && HoldsLock(db, a, token)
      && a in db.compensations
    case Complete(a, runner, id, x, token, succeeded, now) =>
      && Executes(db.compExecutions, CompRunning, a, runner, x, token, now) && HoldsLock(db, a, token)
      && a in db.compensations && db.compExecutions[a].completion != Some(id)
    case Escalate(a, version) =>
      && a in db.compensations && db.compensations[a].version == version
      && db.compensations[a].status in {CompApproved, CompRejected, CompFailed, CompUnknown}
    case Recover(now) => true
  }

  lemma RecoveredCompensations(db: Db, a: ActionId, now: Time)
    ensures var after := Compensations.RecoverExpired(db, now);
            && after.actions == db.actions && after.compensations.Keys == db.compensations.Keys
            && after.compExecutions.Keys == db.compExecutions.Keys && after.locks.Keys == db.locks.Keys
            && (a in db.compensations && a !in db.compExecutions ==> after.compensations[a] == db.compensations[a])
            && (a in db.compExecutions && !db.compExecutions[a].status.CompRunning? ==>
                  after.compExecutions[a] == db.compExecutions[a])
            && (a in db.compExecutions && db.compExecutions[a].status.CompRunning? ==>
                  !after.compExecutions[a].status.CompDispatching?)
            && forall r :: r in db.locks ==>
                 if a in db.compExecutions && db.compExecutions[a].status.CompRunning? then true
                 else if db.locks[r].owner == a then after.locks[r] == db.locks[r]
                 else after.locks[r].owner != a
  {
  }

  lemma CompensationDispatchAccepted(db: Db, a: ActionId, version: nat, selected: Option<RunnerId>, now: Time)
    ensures Compensations.Dispatch(db, a, version, selected, now).Accepted?
            <==> AdmitsCompensation(db, CompensationSteps.Dispatch(a, version, selected, now))
  {
    hide Compensations.RecoverExpired;
    RecoveredCompensations(db, a, now);
  }

  lemma CompensationClaimAccepted(cfg: Settings, db: Db, runner: RunnerId, candidate: Option<ActionId>, now: Time)
    ensures Compensations.Claim(cfg, db, runner, candidate, now).Accepted?
            <==> AdmitsCompensation(db, CompensationSteps.Claim(runner, candidate, now))
  {
    hide Compensations.RecoverExpired;
    if candidate.Some? { RecoveredCompensations(db, candidate.value, now); }
  }

  lemma WaitIsFound(db: Db, mid: Db, subject: Subject, run: Option<RunId>)
    requires mid.waits == db.waits && mid.runs == db.runs
    ensures InvestigationHitl.ResolveSubject(mid, subject, run).Accepted? <==> FindsWait(db, subject, run)
  {
    hide InvestigationHitl.ResolveWait;
  }

  lemma DecisionAccepted(db: Db, a: ActionId, approve: bool, version: nat, decider: Option<nat>, allowed: bool,
                         run: Option<RunId>, now: Time)
    ensures Compensations.Decide(db, a, approve, version, decider, allowed, run, now).Accepted?
            <==> MayDecide(db, a, approve, version, decider, allowed, now)
                 && FindsWait(db, Subject(CompensationSubject, a), run)
  {
    hide InvestigationHitl.ResolveWait, FindsWait;
    if a in db.compensations {
      WaitIsFound(db, Compensations.SetCompensation(db, a, CompApproved), Subject(CompensationSubject, a), run);
      WaitIsFound(db, Compensations.SetCompensation(db, a, CompRejected), Subject(CompensationSubject, a), run);
    }
  }

  lemma CompensationAccepted(cfg: Settings, db: Db, s: CompensationSteps.CompensationStep)
    ensures CompensationSteps.Apply(cfg, db, s).Accepted? <==> AdmitsCompensation(db, s)
  {
    match s
    case Dispatch(a, version, selected, now) => CompensationDispatchAccepted(db, a, version, selected, now);
    case Claim(runner, candidate, now) => CompensationClaimAccepted(cfg, db, runner, candidate, now);
    case Decide(a, approve, version, decider, allowed, run, now) =>
      DecisionAccepted(db, a, approve, version, decider, allowed, run, now);
    case _ => hide Compensations.RecoverExpired, Compensations.Dispatch, Compensations.Claim, Compensations.Decide;
  }

  // ----- Tasks ----------------------------------------------------------------------------------------------------

  predicate HoldsTask(db: Db, t: TaskId, runner: RunnerId, token: Token, now: Time) {
    && t in db.tasks && db.tasks[t].status.TaskLeased?
    && db.tasks[t].runner == Some(runner) && db.tasks[t].token == Some(token)
    && db.tasks[t].lease.Some? && now < db.tasks[t].lease.value
  }

  /** A claim leases a queued task that no other runner is named for, to a runner that holds none once the expired
      leases have been given back. */
  predicate AdmitsTask(db: Db, s: TaskSteps.TaskStep) {
    match s
    case Create(t, planStep, assignee, maxAttempts) => t !in db.tasks && maxAttempts >= 1
    case Claim(runner, token, expired, candidate, now) =>
      && candidate.Some?
      && var tasks := RunnerTasks.EndAll(db, RunnerTasks.Lapse(now), expired).tasks;
         && (forall t :: t in tasks && tasks[t].status.TaskLeased? ==> tasks[t].runner != Some(runner))
         && candidate.value in tasks && tasks[candidate.value].status.TaskQueued?
         && (tasks[candidate.value].runner.None? || tasks[candidate.value].runner == Some(runner))
    case Renew(t, runner, token, now) => HoldsTask(db, t, runner, token, now)
    case Complete(t, runner, id, token, succeeded, now) =>
      HoldsTask(db, t, runner, token, now) && db.tasks[t].completion != Some(id)
    case LoseRunner(runner, ids, now) => true
    case Withdraw(ids) => true
  }

  lemma TaskAccepted(cfg: Settings, db: Db, s: TaskSteps.TaskStep)
    ensures TaskSteps.Apply(cfg, db, s).Accepted? <==> AdmitsTask(db, s)
  {
    hide RunnerTasks.EndAll, ActionVerifications.FinalizeTask, RunnerTasks.ResolveTask;
  }

  // ----- Runs ------------------------------------------------------------------------------------------------------

  /** The content is one the run can record now: it runs, the keys are registered and without repetition, iteration and
      no-progress count are in range, the references exist and the request budget suffices. */
  ghost predicate CanRecord(run: Run, c: Content, referencesExist: bool) {
    && run.status.RunRunning? && Registered(run.graph, c.node)
    && run.iteration <= c.iteration <= run.maxIterations && c.noProgress <= c.iteration + 1
    && (forall i, j :: 0 <= i < j < |c.completed| ==> c.completed[i] != c.completed[j])
    && (forall k <- c.completed :: Registered(run.graph, k.node))
    && referencesExist && run.requests + c.requests <= run.requestLimit
  }

  ghost predicate IsNew(run: Run, id: ExecutionId) {
    forall k :: 0 <= k < |run.log| ==> run.log[k].id != id
  }

  /** The first checkpoint with the id has this content. */
  ghost predicate IsRepeated(run: Run, id: ExecutionId, c: Content) {
    exists k :: 0 <= k < |run.log| && run.log[k].id == id && run.log[k].content == c
                && forall i :: 0 <= i < k ==> run.log[i].id != id
  }

  predicate CanInterrupt(db: Db, r: RunId, id: ExecutionId, i: Investigations.Interrupt) {
    match i
    case NoInterrupt => false
    case Hitl(subject, pending) => HitlWait(r, subject) !in db.waits && pending
    case Observation(task, planStep, stepRunning, maxAttempts) =>
      ObservationWait(r, id) !in db.waits && stepRunning && maxAttempts >= 1 && task !in db.tasks
  }

  ghost predicate AdmitsRun(db: Db, s: RunSteps.RunStep) {
    match s
    case Create(r, graph, maxIterations, requestLimit) => r !in db.runs
    case Claim(owner, candidate, now) =>
      && candidate.Some? && candidate.value in db.runs
      && var run := db.runs[candidate.value];
         run.status.RunQueued? || (run.status.RunRunning? && (run.lease.Some? ==> run.lease.value <= now))
    case Renew(r, owner, now) => r in db.runs && db.runs[r].status.RunRunning? && db.runs[r].owner == Some(owner)
    case Write(r, id, version, c, references) =>
      && r in db.runs && db.runs[r].version == version && IsNew(db.runs[r], id)
      && CanRecord(db.runs[r], c, references)
    case ExecutorWrite(r, owner, id, c, references, i) =>
      && r in db.runs && db.runs[r].owner == Some(owner)
      && (i.NoInterrupt? ==> IsNew(db.runs[r], id) && CanRecord(db.runs[r], c, references))
      && (!i.NoInterrupt? ==>
            && CanInterrupt(db, r, id, i) && db.runs[r].status.RunRunning?
            && if IsNew(db.runs[r], id) then CanRecord(db.runs[r], c, references) else IsRepeated(db.runs[r], id, c))
    case StartWait(r, checkpoint, subject, version, pending) =>
      && HitlWait(r, subject) !in db.waits && pending
      && r in db.runs && db.runs[r].version == version && db.runs[r].status.RunRunning?
      && !IsNew(db.runs[r], checkpoint)
    case Resolve(subject, run) => FindsWait(db, subject, run)
    case Transition(r, version, target) =>
      r in db.runs && db.runs[r].version == version && (db.runs[r].status, target) in Effects.RUN_TRANSITIONS
    case Finish(r, owner, target) =>
      r in db.runs && db.runs[r].owner == Some(owner) && (db.runs[r].status, target) in Effects.RUN_TRANSITIONS
  }

  lemma RecordIsChecked(run: Run, c: Content, references: bool)
    ensures Investigations.CheckpointError(run, c, references).None? <==> CanRecord(run, c, references)
  {
  }

  lemma WriteAccepted(db: Db, r: RunId, id: ExecutionId, version: nat, c: Content, references: bool,
                      writer: Option<Owner>)
    ensures var o := Investigations.WriteCheckpoint(db, r, id, version, c, references, writer);
            && (o.Accepted? <==>
                  && r in db.runs && db.runs[r].version == version && IsNew(db.runs[r], id)
                  && CanRecord(db.runs[r], c, references))
            && (o.Replayed? <==> r in db.runs && IsRepeated(db.runs[r], id, c))
            && !o.Idle?
            && (o.Replayed? ==> o.db == db)
            && (o.Accepted? ==>
                  o.db == Investigations.SetRun(db, r, Investigations.Recorded(db.runs[r], id, c, writer)))
  {
    hide Investigations.CheckpointError, CanRecord;
    if r in db.runs {
      RecordIsChecked(db.runs[r], c, references);
      var k := FirstWith(db.runs[r].log, id);
      FirstIsFound(db.runs[r].log, id, k);
    }
  }

  /** The first checkpoint with the id, or the end of the log. */
  lemma FirstWith(log: seq<CheckpointRow>, id: ExecutionId) returns (k: nat)
    ensures k <= |log| && (k < |log| ==> log[k].id == id) && forall i :: 0 <= i < k ==> log[i].id != id
  {
    k := 0;
    while k < |log| && log[k].id != id
      invariant k <= |log| && forall i :: 0 <= i < k ==> log[i].id != id
    {
      k := k + 1;
    }
  }

  lemma ExecutorWriteAccepted(db: Db, r: RunId, owner: Owner, id: ExecutionId, c: Content, references: bool,
                              i: Investigations.Interrupt)
    ensures Investigations.ExecutorCheckpoint(db, r, owner, id, c, references, i).Accepted?
            <==> AdmitsRun(db, RunSteps.ExecutorWrite(r, owner, id, c, references, i))
  {
    hide Investigations.WriteCheckpoint;
    if r in db.runs {
      WriteAccepted(db, r, id, db.runs[r].version, c, references, Some(owner));
      var written := Investigations.Recorded(db.runs[r], id, c, Some(owner));
      assert written.log[|db.runs[r].log|].id == id;
    }
  }

  lemma RunAccepted(cfg: Settings, db: Db, s: RunSteps.RunStep)
    ensures RunSteps.Apply(cfg, db, s).Accepted? <==> AdmitsRun(db, s)
  {
    hide Investigations.WriteCheckpoint, Investigations.ExecutorCheckpoint, CanRecord;
    match s
    case Write(r, id, version, c, references) => WriteAccepted(db, r, id, version, c, references, None);
    case ExecutorWrite(r, owner, id, c, references, i) => ExecutorWriteAccepted(db, r, owner, id, c, references, i);
    case _ =>
  }

  // ----- Every request -----------------------------------------------------------------------------------------------

  ghost predicate Admits(db: Db, s: Step) {
    match s
    case OnAction(action) => AdmitsAction(db, action)
    case OnCompensation(comp) => AdmitsCompensation(db, comp)
    case OnTask(task) => AdmitsTask(db, task)
    case OnRun(run) => AdmitsRun(db, run)
  }

  /** Every request, on any tables, is accepted if and only if the rows before it admit it. */
  lemma AcceptedExactly(cfg: Settings, db: Db, s: Step)
    ensures Apply(cfg, db, s).Accepted? <==> Admits(db, s)
  {
    hide AdmitsAction, AdmitsCompensation, AdmitsTask, AdmitsRun,
      ActionSteps.Apply, CompensationSteps.Apply, TaskSteps.Apply, RunSteps.Apply;
    match s
    case OnAction(action) => ActionAccepted(cfg, db, action);
    case OnCompensation(comp) => CompensationAccepted(cfg, db, comp);
    case OnTask(task) => TaskAccepted(cfg, db, task);
    case OnRun(run) => RunAccepted(cfg, db, run);
  }
}
