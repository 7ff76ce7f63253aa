/** What no step undoes about runner tasks and runs: a finished task stays finished, attempts are counted, a
    run's checkpoint log only grows. */
module TaskLife {
  import opened Common
  import opened InvestigationGraph
  import opened Records
  import opened ActionInvariants
  import opened RunnerTasks
  import opened ActionVerifications
  import opened InvestigationHitl
  import opened Investigations
  import opened RunInvariants
  import opened RunPreservation
  import opened TaskCoupling
  import opened TaskPreservation
  import opened StepRelations

  predicate TaskGrows(task: Task, task': Task, leased: bool) {
    && task'.verification == task.verification && task'.wait == task.wait
    && task'.planStep == task.planStep && task'.maxAttempts == task.maxAttempts
    && task'.attempt == task.attempt + (if leased then 1 else 0)
    && (!Live(task) ==> task'.status == task.status && task'.completion == task.completion && !leased)
    && (task'.status.TaskLeased? && !leased ==>
          task.status.TaskLeased? && task'.runner == task.runner && task'.token == task.token)
  }

  /** Every task lives on; only the `leased` one gets an attempt more, new ones start without any. */
  ghost predicate TasksGrow(db: Db, db': Db, leased: Option<TaskId>) {
    && (forall t :: t in db.tasks ==> t in db'.tasks && TaskGrows(db.tasks[t], db'.tasks[t], leased == Some(t)))
    && (forall t :: t in db'.tasks && t !in db.tasks ==> db'.tasks[t].attempt == if leased == Some(t) then 1 else 0)
  }

  /** A run's version never falls, and rises with every change of its row but a renewed lease. */
  predicate RunVersionGrows(run: Run, run': Run) {
    run.version <= run'.version && (run'.version == run.version ==> run' == run.(lease := run'.lease))
  }

  ghost predicate RunGrows(run: Run, run': Run, claimed: Option<Owner>) {
    && run'.graph == run.graph && run'.maxIterations == run.maxIterations && run'.requestLimit == run.requestLimit
    && run.log <= run'.log && RunVersionGrows(run, run')
    && run'.claimant == (if claimed.Some? then claimed else run.claimant)
    && (TerminalRun(run.status) ==> run'.status == run.status)
    && (LogOk(run) ==> LogOk(run')) && (OwnerOk(run) ==> OwnerOk(run'))
  }

  datatype Claimed = Claimed(run: RunId, owner: Owner)

  function ClaimOf(claimed: Option<Claimed>, r: RunId): Option<Owner> {
    if claimed.Some? && claimed.value.run == r then Some(claimed.value.owner) else None
  }

  /** Every run lives on, its log is only appended to; only the `claimed` one gets another claimant. */
  ghost predicate RunsGrow(db: Db, db': Db, claimed: Option<Claimed>) {
    && (claimed.Some? ==> claimed.value.run in db.runs)
    && (forall r :: r in db.runs ==> r in db'.runs && RunGrows(db.runs[r], db'.runs[r], ClaimOf(claimed, r)))
    && (forall r :: r in db'.runs && r !in db.runs ==>
          db'.runs[r].claimant.None? && LogOk(db'.runs[r]) && OwnerOk(db'.runs[r]))
    && (Linked(db) ==> Linked(db'))
  }

  ghost predicate LivesOn(db: Db, db': Db) {
    TasksGrow(db, db', None) && RunsGrow(db, db', None)
  }

  lemma LivesOnOn(db: Db, db': Db, db'': Db)
    requires LivesOn(db, db') && LivesOn(db', db'')
    ensures LivesOn(db, db'')
  {
    hide LogOk, OwnerOk, Linked;
    forall t | t in db.tasks ensures t in db''.tasks && TaskGrows(db.tasks[t], db''.tasks[t], false) {
      assert TaskGrows(db.tasks[t], db'.tasks[t], false) && TaskGrows(db'.tasks[t], db''.tasks[t], false);
    }
    forall r | r in db.runs ensures r in db''.runs && RunGrows(db.runs[r], db''.runs[r], None) {
      assert RunGrows(db.runs[r], db'.runs[r], None) && RunGrows(db'.runs[r], db''.runs[r], None);
    }
  }

  lemma TablesLiveOn(db: Db, db': Db)
    requires ActionTablesOnly(db, db')
    ensures LivesOn(db, db')
  {
    hide Linked;
    SameLinksKeep(db, db');
  }

  // ----- Tasks ---------------------------------------------------------------------------------------

  lemma ResolveLivesOn(db: Db, t: TaskId)
    ensures LivesOn(db, ResolveTask(db, t)) && ResolveTask(db, t).tasks == db.tasks
  {
    hide LivesOn, ResolveWait;
    NothingDies(db);
    if WaitingOn(db, t).Some? { ResolveWaitLivesOn(db, WaitingOn(db, t).value); }
  }

  lemma ResolvedLinks(db: Db, w: WaitKey)
    ensures SameLinks(db, ResolveWait(db, w)) && ResolveWait(db, w).tasks == db.tasks
  {
  }

  lemma ResolveWaitLivesOn(db: Db, w: WaitKey)
    ensures LivesOn(db, ResolveWait(db, w)) && ResolveWait(db, w).tasks == db.tasks
  {
    hide Linked, SameLinks, RunGrows;
    ResolvedLinks(db, w);
    SameLinksKeep(db, ResolveWait(db, w));
    forall r | r in db.runs ensures RunGrows(db.runs[r], db.runs[r], None) {
      StatusGrows(db.runs[r], db.runs[r], None);
    }
    if w in db.waits && w.run in db.runs {
      StatusGrows(db.runs[w.run], Requeued(db.runs[w.run]), None);
    }
  }

  lemma ResolveSubjectLivesOn(db: Db, subject: Subject, run: Option<RunId>)
    ensures LivesOn(db, After(db, ResolveSubject(db, subject, run)))
  {
    hide LivesOn, ResolveWait;
    NothingDies(db);
    if run.Some? { ResolveWaitLivesOn(db, HitlWait(run.value, subject)); }
  }

  lemma SetLivesOn(db: Db, t: TaskId, task: Task)
    requires t in db.tasks && TaskGrows(db.tasks[t], task, false)
    ensures LivesOn(db, SetTask(db, t, task))
  {
    hide Linked;
    SameLinksKeep(db, SetTask(db, t, task));
  }

  /** The end of a task, its effect on a waiting run, and the decision about a verification. */
  lemma EndedLivesOn(db: Db, mid: Db, t: TaskId, task: Task, succeeded: bool, now: Time)
    requires t in db.tasks && Live(db.tasks[t]) && TaskGrows(db.tasks[t], task, false)
    requires mid.tasks == db.tasks[t := task] && LivesOn(db, mid)
    ensures LivesOn(db, FinalizeTask(mid, t, succeeded, now))
  {
    hide FinalizeTask, Decides, RunsGrow, Linked;
    FinalizeTables(mid, t, succeeded, now);
    SameRunsGrow(db, mid, FinalizeTask(mid, t, succeeded, now));
  }

  lemma EndTaskLivesOn(db: Db, how: Ending, t: TaskId)
    ensures LivesOn(db, EndTask(db, how, t))
  {
    hide LivesOn, FinalizeTask, ResolveTask;
    NothingDies(db);
    if t in db.tasks && Live(db.tasks[t]) {
      var task := db.tasks[t];
      var given, withdrawn := GivenBack(task), task.(status := TaskCancelled, token := None, lease := None);
      SetLivesOn(db, t, given);
      SetLivesOn(db, t, given.(runner := None));
      SetLivesOn(db, t, withdrawn);
      ResolveLivesOn(SetTask(db, t, given), t);
      ResolveLivesOn(SetTask(db, t, withdrawn), t);
      LivesOnOn(db, SetTask(db, t, given), ResolveTask(SetTask(db, t, given), t));
      LivesOnOn(db, SetTask(db, t, withdrawn), ResolveTask(SetTask(db, t, withdrawn), t));
      var now := if how.Withdrawal? then 0 else how.now;
      EndedLivesOn(db, ResolveTask(SetTask(db, t, given), t), t, given, false, now);
      EndedLivesOn(db, SetTask(db, t, given), t, given, false, now);
    }
  }

  lemma NothingDies(db: Db)
    ensures LivesOn(db, db)
  {
  }

  lemma {:induction false} EndAllLivesOn(db: Db, how: Ending, ids: seq<TaskId>)
    ensures LivesOn(db, EndAll(db, how, ids))
  {
    hide LivesOn, EndTask;
    NothingDies(db);
    if ids != [] {
      var mid := EndAll(db, how, ids[..|ids|-1]);
      EndAllLivesOn(db, how, ids[..|ids|-1]);
      EndTaskLivesOn(mid, how, ids[|ids|-1]);
      LivesOnOn(db, mid, EndAll(db, how, ids));
    }
  }

  lemma NewTaskLivesOn(db: Db, t: TaskId, task: Task)
    requires t !in db.tasks && task.attempt == 0 && task.wait.None?
    ensures LivesOn(db, SetTask(db, t, task))
  {
    hide Linked;
    SameLinksKeep(db, SetTask(db, t, task));
  }

  lemma CreateLivesOn(db: Db, t: TaskId, planStep: Option<PlanStepId>, runner: Option<RunnerId>, maxAttempts: nat)
    ensures LivesOn(db, After(db, RunnerTasks.Create(db, t, planStep, runner, maxAttempts)))
  {
    hide LivesOn;
    NothingDies(db);
    if t !in db.tasks {
      NewTaskLivesOn(db, t, Task(planStep, None, None, runner, TaskQueued, 0, maxAttempts, None, None, None));
    }
  }

  lemma RenewLivesOn(cfg: Settings, db: Db, t: TaskId, runner: RunnerId, token: Token, now: Time)
    ensures LivesOn(db, After(db, RunnerTasks.Renew(cfg, db, t, runner, token, now)))
  {
    hide LivesOn;
    NothingDies(db);
    if RunnerTasks.Renew(cfg, db, t, runner, token, now).Accepted? {
      SetLivesOn(db, t, db.tasks[t].(lease := Some(now + cfg.taskLease)));
    }
  }

  lemma CompleteLivesOn(db: Db, t: TaskId, runner: RunnerId, completion: CompletionId, token: Token,
                        succeeded: bool, now: Time)
    ensures LivesOn(db, After(db, RunnerTasks.Complete(db, t, runner, completion, token, succeeded, now)))
  {
    hide LivesOn, FinalizeTask, ResolveTask;
    NothingDies(db);
    if RunnerTasks.Complete(db, t, runner, completion, token, succeeded, now).Accepted? {
      var done := db.tasks[t].(status := if succeeded then TaskSucceeded else TaskFailed,
                               completion := Some(completion), lease := None);
      var stored := SetTask(db, t, done);
      var final := FinalizeTask(stored, t, succeeded, now);
      SetLivesOn(db, t, done);
      EndedLivesOn(db, stored, t, done, succeeded, now);
      ResolveLivesOn(final, t);
      LivesOnOn(db, final, ResolveTask(final, t));
    }
  }

  /** The task an accepted claim leases. */
  function LeasedBy(o: Outcome, candidate: Option<TaskId>): Option<TaskId> {
    if o.Accepted? then candidate else None
  }

  lemma LeasedLinks(db: Db, t: TaskId, task: Task)
    requires t in db.tasks && task.wait == db.tasks[t].wait && task.verification == db.tasks[t].verification
    ensures SameLinks(db, MarkRunning(SetTask(db, t, task), t))
  {
    hide MarkRunning;
    MarkTables(SetTask(db, t, task), t);
  }

  lemma LeasedTasks(db: Db, mid: Db, t: TaskId, task: Task)
    requires TasksGrow(db, mid, None) && t in mid.tasks && TaskGrows(mid.tasks[t], task, true)
    ensures TasksGrow(db, SetTask(mid, t, task), Some(t))
  {
  }

  lemma LeaseGrows(cfg: Settings, db: Db, mid: Db, t: TaskId, runner: RunnerId, token: Token, now: Time)
    requires LivesOn(db, mid) && t in mid.tasks && mid.tasks[t].status.TaskQueued?
    ensures var db' := MarkRunning(SetTask(mid, t, Leased(cfg, mid.tasks[t], runner, token, now)), t);
            TasksGrow(db, db', Some(t)) && RunsGrow(db, db', None)
  {
    hide RunsGrow, MarkRunning, TasksGrow, SameLinks;
    var task := Leased(cfg, mid.tasks[t], runner, token, now);
    var db' := MarkRunning(SetTask(mid, t, task), t);
    MarkTables(SetTask(mid, t, task), t);
    LeasedLinks(mid, t, task);
    SameRunsGrow(db, mid, db');
    LeasedTasks(db, mid, t, task);
    SameTasksGrow(db, SetTask(mid, t, task), db', Some(t));
  }

  lemma SameTasksGrow(db: Db, mid: Db, db': Db, leased: Option<TaskId>)
    requires TasksGrow(db, mid, leased) && db'.tasks == mid.tasks
    ensures TasksGrow(db, db', leased)
  {
  }

  lemma ClaimGrows(cfg: Settings, db: Db, runner: RunnerId, token: Token, expired: seq<TaskId>,
                   candidate: Option<TaskId>, now: Time)
    ensures var o := RunnerTasks.Claim(cfg, db, runner, token, expired, candidate, now);
            TasksGrow(db, After(db, o), LeasedBy(o, candidate)) && RunsGrow(db, After(db, o), None)
  {
    hide EndAll, HasLeased, RunsGrow, TasksGrow, MarkRunning;
    NothingDies(db);
    var mid := EndAll(db, Lapse(now), expired);
    EndAllLivesOn(db, Lapse(now), expired);
    if RunnerTasks.Claim(cfg, db, runner, token, expired, candidate, now).Accepted? {
      LeaseGrows(cfg, db, mid, candidate.value, runner, token, now);
    }
  }

  lemma SameRunsGrow(db: Db, mid: Db, db': Db)
    requires RunsGrow(db, mid, None) && db'.runs == mid.runs && SameLinks(mid, db')
    ensures RunsGrow(db, db', None)
  {
    hide Linked, SameLinks;
    SameLinksKeep(mid, db');
  }

  // ----- Runs ------------------------------------------------------------------------------------------

  lemma SetRunLivesOn(db: Db, r: RunId, run: Run)
    requires if r in db.runs then RunGrows(db.runs[r], run, None) else run.claimant.None? && LogOk(run) && OwnerOk(run)
    ensures LivesOn(db, SetRun(db, r, run))
  {
    hide LogOk, OwnerOk, Linked;
    SameLinksKeep(db, SetRun(db, r, run));
  }

  /** Only status, owner, lease, version and claimant change. */
  lemma StatusGrows(run: Run, run': Run, claimed: Option<Owner>)
    requires run' == run.(status := run'.status, owner := run'.owner, lease := run'.lease, version := run'.version,
                          claimant := run'.claimant)
    requires RunVersionGrows(run, run')
    requires run'.claimant == (if claimed.Some? then claimed else run.claimant)
    requires TerminalRun(run.status) ==> run'.status == run.status
    requires OwnerOk(run) ==> OwnerOk(run')
    ensures RunGrows(run, run', claimed)
  {
    hide LogOk;
    LogIgnoresStatus(run, run');
  }

  lemma CheckpointLivesOn(db: Db, r: RunId, id: ExecutionId, version: nat, c: Content, references: bool,
                          writer: Option<Owner>)
    ensures LivesOn(db, After(db, WriteCheckpoint(db, r, id, version, c, references, writer)))
  {
    hide LivesOn, LogOk;
    NothingDies(db);
    if WriteCheckpoint(db, r, id, version, c, references, writer).Accepted? {
      if LogOk(db.runs[r]) { RecordedKeepsLog(db.runs[r], id, c, references, writer); }
      SetRunLivesOn(db, r, Recorded(db.runs[r], id, c, writer));
    }
  }

  lemma StoppedLivesOn(db: Db, w: WaitKey, wait: Wait, task: Option<Task>)
    requires w.run in db.runs && db.runs[w.run].status.RunRunning? && (task.Some? ==> wait.task.Some?)
    requires w !in db.waits && (task.Some? <==> wait.task.Some?) && (task.Some? <==> w.ObservationWait?)
    requires task.Some? ==>
               && wait.task.value !in db.tasks && task.value.attempt == 0
               && task.value.wait == Some(w) && task.value.verification.None?
    ensures LivesOn(db, Stopped(db, w, wait, task))
  {
    hide LogOk, Linked;
    StatusGrows(db.runs[w.run], Paused(db.runs[w.run]), None);
    NewLink(db, w, wait, task);
  }

  lemma NewLink(db: Db, w: WaitKey, wait: Wait, task: Option<Task>)
    requires w.run in db.runs && w !in db.waits
    requires (task.Some? <==> wait.task.Some?) && (task.Some? <==> w.ObservationWait?)
    requires task.Some? ==>
               wait.task.value !in db.tasks && task.value.wait == Some(w) && task.value.verification.None?
    ensures Linked(db) ==> Linked(Stopped(db, w, wait, task))
  {
    if Linked(db) {
      var db' := Stopped(db, w, wait, task);
      forall t | t in db'.tasks ensures WaitLinked(db', t) {
        assert t in db.tasks ==> WaitLinked(db, t);
      }
    }
  }

  lemma StartWaitLivesOn(db: Db, r: RunId, checkpoint: ExecutionId, subject: Subject, version: nat, pending: bool)
    ensures LivesOn(db, After(db, StartWait(db, r, checkpoint, subject, version, pending)))
  {
    hide LivesOn;
    NothingDies(db);
    if StartWait(db, r, checkpoint, subject, version, pending).Accepted? {
      StoppedLivesOn(db, HitlWait(r, subject), Wait(Waiting, checkpoint, None), None);
    }
  }

  lemma StartObservationLivesOn(db: Db, r: RunId, id: ExecutionId, i: Interrupt)
    requires i.Observation? && r in db.runs
    ensures LivesOn(db, After(db, StartObservation(db, r, id, i)))
  {
    hide LivesOn;
    NothingDies(db);
    if StartObservation(db, r, id, i).Accepted? {
      var w := ObservationWait(r, id);
      StoppedLivesOn(db, w, Wait(Waiting, id, Some(i.task)),
                     Some(Task(Some(i.planStep), None, Some(w), None, TaskQueued, 0, i.maxAttempts, None, None, None)));
    }
  }

  lemma ExecutorCheckpointLivesOn(db: Db, r: RunId, owner: Owner, id: ExecutionId, c: Content, references: bool,
                                  i: Interrupt)
    ensures LivesOn(db, After(db, ExecutorCheckpoint(db, r, owner, id, c, references, i)))
  {
    hide LivesOn, WriteCheckpoint, StartWait, StartObservation;
    NothingDies(db);
    var o := ExecutorCheckpoint(db, r, owner, id, c, references, i);
    if !o.Refused? {
      var written := WriteCheckpoint(db, r, id, db.runs[r].version, c, references, Some(owner));
      CheckpointLivesOn(db, r, id, db.runs[r].version, c, references, Some(owner));
      if i.Hitl? { StartWaitLivesOn(written.db, r, id, i.subject, written.db.runs[r].version, i.pending); }
      if i.Observation? { StartObservationLivesOn(written.db, r, id, i); }
      if !i.NoInterrupt? { LivesOnOn(db, written.db, o.db); }
    }
  }

  lemma CancelledLivesOn(db: Db, r: RunId)
    ensures LivesOn(db, CancelWaits(db, r))
  {
    hide Linked, SameLinks, RunGrows;
    CancelledLinks(db, r);
    SameLinksKeep(db, CancelWaits(db, r));
    NothingDies(db);
  }

  lemma CancelledLinks(db: Db, r: RunId)
    ensures SameLinks(db, CancelWaits(db, r)) && CancelWaits(db, r).runs == db.runs
  {
  }

  lemma TransitionLivesOn(db: Db, r: RunId, version: nat, target: RunStatus)
    ensures LivesOn(db, After(db, Transition(db, r, version, target)))
  {
    hide LivesOn, CancelWaits, RunGrows;
    NothingDies(db);
    if Transition(db, r, version, target).Accepted? {
      StatusGrows(db.runs[r], Moved(db.runs[r], target), None);
      var moved := SetRun(db, r, Moved(db.runs[r], target));
      SetRunLivesOn(db, r, Moved(db.runs[r], target));
      CancelledLivesOn(moved, r);
      LivesOnOn(db, moved, CancelWaits(moved, r));
    }
  }

  lemma RenewLeaseLivesOn(cfg: Settings, db: Db, r: RunId, owner: Owner, now: Time)
    ensures LivesOn(db, After(db, RenewLease(cfg, db, r, owner, now)))
  {
    hide LivesOn, RunGrows;
    NothingDies(db);
    if RenewLease(cfg, db, r, owner, now).Accepted? {
      StatusGrows(db.runs[r], db.runs[r].(lease := Some(now + cfg.runLease)), None);
      SetRunLivesOn(db, r, db.runs[r].(lease := Some(now + cfg.runLease)));
    }
  }

  lemma CreateRunLivesOn(db: Db, r: RunId, graph: GraphVersion, maxIterations: nat, requestLimit: nat)
    ensures LivesOn(db, After(db, Investigations.Create(db, r, graph, maxIterations, requestLimit)))
  {
    hide LivesOn;
    NothingDies(db);
    if r !in db.runs {
      SetRunLivesOn(db, r, Run(graph, RunQueued, None, None, 1, maxIterations, 0, 0, requestLimit, 0, 0, 0, [], None));
    }
  }

  /** The run an accepted claim gives to a worker. */
  function ClaimedBy(o: Outcome, candidate: Option<RunId>, owner: Owner): Option<Claimed> {
    if o.Accepted? && candidate.Some? then Some(Claimed(candidate.value, owner)) else None
  }

  lemma ClaimedGrows(db: Db, r: RunId, run: Run, owner: Owner)
    requires r in db.runs && RunGrows(db.runs[r], run, Some(owner))
    ensures TasksGrow(db, SetRun(db, r, run), None) && RunsGrow(db, SetRun(db, r, run), Some(Claimed(r, owner)))
  {
    hide LogOk, OwnerOk, Linked;
    SameLinksKeep(db, SetRun(db, r, run));
  }

  lemma ClaimRunGrows(cfg: Settings, db: Db, owner: Owner, candidate: Option<RunId>, now: Time)
    ensures var o := Investigations.Claim(cfg, db, owner, candidate, now);
            TasksGrow(db, After(db, o), None) && RunsGrow(db, After(db, o), ClaimedBy(o, candidate, owner))
  {
    hide TasksGrow, RunsGrow, RunGrows;
    NothingDies(db);
    if Investigations.Claim(cfg, db, owner, candidate, now).Accepted? {
      var run := db.runs[candidate.value];
      var run' := run.(status := RunRunning, owner := Some(owner), lease := Some(now + cfg.runLease),
                       version := run.version + 1, claimant := Some(owner));
      StatusGrows(run, run', Some(owner));
      ClaimedGrows(db, candidate.value, run', owner);
    }
  }
}
