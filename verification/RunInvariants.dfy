/** What every step keeps true of investigation runs: the checkpoint log adds up, and a waiting run is
    paused, unowned and has exactly one open wait. */
module RunInvariants {
  import opened Common
  import opened InvestigationGraph
  import opened Records
  import opened ResourceLocks
  import opened RunnerTasks
  import opened ActionVerifications
  import opened InvestigationHitl
  import opened Investigations

  // ----- The checkpoint log --------------------------------------------------------------------------

  /** Sum of a field over a log. */
  function Sum(log: seq<CheckpointRow>, field: Content -> nat): nat {
    if log == [] then 0 else Sum(log[..|log|-1], field) + field(log[|log|-1].content)
  }

  const REQUESTS: Content -> nat := (c: Content) => c.requests
  const INPUT_TOKENS: Content -> nat := (c: Content) => c.inputTokens
  const OUTPUT_TOKENS: Content -> nat := (c: Content) => c.outputTokens

  ghost predicate LogOk(run: Run) {
    && |run.log| == run.sequence
    && (forall k {:trigger run.log[k]} :: 0 <= k < |run.log| ==> run.log[k].sequence == k + 1)
    && (forall j, k :: 0 <= j < k < |run.log| ==> run.log[j].content.iteration <= run.log[k].content.iteration)
    && (forall j, k :: 0 <= j < k < |run.log| ==> run.log[j].id != run.log[k].id)
    && (forall k {:trigger run.log[k]} :: 0 <= k < |run.log| ==> run.log[k].content.iteration <= run.iteration)
    && run.requests == Sum(run.log, REQUESTS)
    && run.inputTokens == Sum(run.log, INPUT_TOKENS)
    && run.outputTokens == Sum(run.log, OUTPUT_TOKENS)
    && run.requests <= run.requestLimit
  }

  /** Only the worker of the latest claim can own a run, and only while it is running. */
  predicate OwnerOk(run: Run) {
    run.owner.Some? ==> run.status.RunRunning? && run.owner == run.claimant
  }

  /** Writing a checkpoint: the next sequence number, a later or equal iteration, the totals charged once. */
  lemma RecordedKeepsLog(run: Run, id: ExecutionId, c: Content, references: bool, writer: Option<Owner>)
    requires LogOk(run) && Find(run.log, id) == |run.log| && CheckpointError(run, c, references).None?
    ensures LogOk(Recorded(run, id, c, writer))
  {
    var run' := Recorded(run, id, c, writer);
    assert run'.log[..|run'.log|-1] == run.log;
  }

  // ----- Waits ---------------------------------------------------------------------------------------

  /** An observation wait and its task point at each other; a waiting wait's run is paused and unowned, and
      the task it waits for is live. */
  predicate WaitOk(db: Db, w: WaitKey)
    requires w in db.waits
  {
    var wait := db.waits[w];
    && w.run in db.runs
    && (wait.task.Some? <==> w.ObservationWait?)
    && (wait.task.Some? ==> wait.task.value in db.tasks && db.tasks[wait.task.value].wait == Some(w))
    && (wait.status.Waiting? ==>
          && db.runs[w.run].status.RunPaused? && db.runs[w.run].owner.None?
          && (wait.task.Some? ==> Live(db.tasks[wait.task.value])))
  }

  predicate WaitLinked(db: Db, t: TaskId)
    requires t in db.tasks
  {
    var w := db.tasks[t].wait;
    w.Some? ==> w.value in db.waits && db.waits[w.value].task == Some(t) && db.tasks[t].verification.None?
  }

  /** Observation waits and their tasks point at each other; a human's wait has no task. */
  ghost predicate Linked(db: Db) {
    && (forall w :: w in db.waits ==>
          && (db.waits[w].task.Some? <==> w.ObservationWait?)
          && (db.waits[w].task.Some? ==>
                var t := db.waits[w].task.value; t in db.tasks && db.tasks[t].wait == Some(w)))
    && (forall t :: t in db.tasks ==> WaitLinked(db, t))
  }

  /** Waits and tasks may be added without links, and rows may change apart from their links. */
  ghost predicate SameLinks(db: Db, db': Db) {
    && (forall w :: w in db'.waits ==> w in db.waits && db'.waits[w].task == db.waits[w].task)
    && (forall w :: w in db.waits ==> w in db'.waits)
    && (forall t :: t in db.tasks ==>
          t in db'.tasks && db'.tasks[t].wait == db.tasks[t].wait
          && db'.tasks[t].verification == db.tasks[t].verification)
    && (forall t :: t in db'.tasks && t !in db.tasks ==> db'.tasks[t].wait.None?)
  }

  lemma SameLinksKeep(db: Db, db': Db)
    requires SameLinks(db, db')
    ensures Linked(db) ==> Linked(db')
  {
    if Linked(db) {
      forall t | t in db'.tasks ensures WaitLinked(db', t) {
        assert t in db.tasks ==> WaitLinked(db, t);
      }
    }
  }

  ghost predicate OneWaitPerRun(db: Db) {
    forall v, w ::
      v in db.waits && w in db.waits && db.waits[v].status.Waiting? && db.waits[w].status.Waiting? && v.run == w.run
      ==> v == w
  }

  ghost predicate Coupled(db: Db) {
    && (forall w :: w in db.waits ==> WaitOk(db, w))
    && (forall t :: t in db.tasks ==> WaitLinked(db, t))
    && OneWaitPerRun(db)
  }

  ghost predicate RunsOk(db: Db) {
    forall r :: r in db.runs ==> LogOk(db.runs[r]) && OwnerOk(db.runs[r])
  }

  // ----- Steps on tasks -------------------------------------------------------------------------------

  /** Task rows change, but no task somebody waits for stops being live, and no link changes. */
  ghost predicate MildTasks(db: Db, db': Db) {
    && db'.runs == db.runs && db'.waits == db.waits
    && (forall t :: t in db.tasks ==> t in db'.tasks && db'.tasks[t].wait == db.tasks[t].wait
                                      && db'.tasks[t].verification == db.tasks[t].verification)
    && (forall t ::
          t in db.tasks && WaitingOn(db, t).Some? && Live(db.tasks[t]) ==> t in db'.tasks && Live(db'.tasks[t]))
    && (forall t :: t in db'.tasks && t !in db.tasks ==> db'.tasks[t].wait.None?)
  }

  lemma MildTasksKeep(db: Db, db': Db)
    requires Coupled(db) && RunsOk(db) && MildTasks(db, db')
    ensures Coupled(db') && RunsOk(db')
  {
    forall w | w in db'.waits ensures WaitOk(db', w) {
      assert WaitOk(db, w);
    }
    forall t | t in db'.tasks ensures WaitLinked(db', t) {
      assert t in db.tasks ==> WaitLinked(db, t);
    }
  }

  lemma WaitFacts(db: Db, t: TaskId)
    requires Coupled(db) && t in db.tasks
    ensures WaitLinked(db, t)
    ensures var w := WaitingOn(db, t); w.Some? ==> WaitOk(db, w.value) && WaitsFor(db, w.value)
  {
  }

  /** A task may stop being live if the run waiting for it is woken in the same step. */
  lemma EndedTaskKeeps(db: Db, t: TaskId, task: Task)
    requires Coupled(db) && RunsOk(db) && t in db.tasks
    requires task.wait == db.tasks[t].wait && task.verification == db.tasks[t].verification
    ensures var db' := ResolveTask(SetTask(db, t, task), t);
            Coupled(db') && RunsOk(db')
  {
    hide Coupled, RunsOk, ResolveWait;
    var mid := SetTask(db, t, task);
    WaitFacts(db, t);
    match WaitingOn(db, t)
    case None =>
      assert MildTasks(db, mid);
      MildTasksKeep(db, mid);
    case Some(w) =>
      WokenKeeps(db, mid, t, w);
  }

  /** `mid` is `db` with another row for the task the wait waits for. */
  ghost predicate Ended(db: Db, mid: Db, t: TaskId, w: WaitKey) {
    && w in db.waits && db.waits[w].status.Waiting? && db.waits[w].task == Some(t) && t in db.tasks
    && t in mid.tasks && mid == SetTask(db, t, mid.tasks[t])
    && mid.tasks[t].wait == db.tasks[t].wait && mid.tasks[t].verification == db.tasks[t].verification
  }

  /** Resolving the wait of a paused run, after a change to the task it waited for. */
  lemma WokenKeeps(db: Db, mid: Db, t: TaskId, w: WaitKey)
    requires Coupled(db) && RunsOk(db) && t in mid.tasks && Ended(db, mid, t, w)
    ensures Coupled(ResolveWait(mid, w)) && RunsOk(ResolveWait(mid, w))
  {
    hide LogOk, WaitOk, WaitLinked;
    var db' := ResolveWait(mid, w);
    assert WaitOk(db, w);
    WokenWait(db, mid, t, w, w);
    LogIgnoresStatus(db.runs[w.run], db'.runs[w.run]);
    forall v | v in db'.waits ensures WaitOk(db', v) {
      WokenWait(db, mid, t, w, v);
    }
    forall u | u in db'.tasks ensures WaitLinked(db', u) {
      WokenLink(db, mid, t, w, u);
    }
  }

  lemma WokenWait(db: Db, mid: Db, t: TaskId, w: WaitKey, v: WaitKey)
    requires t in mid.tasks && Ended(db, mid, t, w) && v in db.waits && WaitOk(db, v) && WaitOk(db, w)
    requires v != w && db.waits[v].status.Waiting? ==> v.run != w.run
    ensures w.run in db.runs && v in ResolveWait(mid, w).waits && WaitOk(ResolveWait(mid, w), v)
  {
  }

  lemma WokenLink(db: Db, mid: Db, t: TaskId, w: WaitKey, u: TaskId)
    requires t in mid.tasks && Ended(db, mid, t, w) && u in db.tasks && WaitLinked(db, u)
    ensures u in ResolveWait(mid, w).tasks && WaitLinked(ResolveWait(mid, w), u)
  {
  }

  lemma LogIgnoresStatus(run: Run, run': Run)
    requires run' == run.(status := run'.status, owner := run'.owner, lease := run'.lease, version := run'.version,
                          claimant := run'.claimant)
    ensures LogOk(run) ==> LogOk(run')
  {
  }

  lemma DecidedTables(db: Db, a: ActionId, passed: bool, now: Time)
    requires a in db.actions && a in db.executions && a in db.verifications
    ensures var db' := Decided(db, a, passed, now);
            db'.runs == db.runs && db'.waits == db.waits && db'.tasks == db.tasks
  {
    hide LockOf;
    match LockOf(db, a)
    case None =>
    case Some(lock) =>
  }

  /** The task that is tried again after a failed verification. */
  predicate Retries(db: Db, t: TaskId, succeeded: bool) {
    Decides(db, t) && !succeeded && db.tasks[t].attempt < db.tasks[t].maxAttempts
  }

  lemma FinalizeTables(db: Db, t: TaskId, succeeded: bool, now: Time)
    ensures var db' := FinalizeTask(db, t, succeeded, now);
            && db'.runs == db.runs && db'.waits == db.waits
            && (if Retries(db, t, succeeded) then
                  t in db.tasks && db.tasks[t].verification.Some?
                  && db'.tasks == db.tasks[t := db.tasks[t].(status := TaskQueued, runner := None, token := None,
                                                             lease := None)]
                else db'.tasks == db.tasks)
            && (!Decides(db, t) ==> db' == db)
  {
    hide Decided, Terminal;
    if Decides(db, t) && !Retries(db, t, succeeded) {
      var a := db.tasks[t].verification.value;
      if a in db.actions && a in db.executions { DecidedTables(db, a, succeeded, now); }
    }
  }

  lemma FinalizeIsMild(db: Db, t: TaskId, succeeded: bool, now: Time)
    requires Coupled(db)
    ensures MildTasks(db, FinalizeTask(db, t, succeeded, now))
  {
    hide Coupled, FinalizeTask;
    FinalizeTables(db, t, succeeded, now);
    if t in db.tasks { WaitFacts(db, t); }
  }

  /** Every way a task ends keeps the coupling, except the loss of a runner, which does not wake the run. */
  lemma EndKeepsCoupling(db: Db, how: Ending, t: TaskId)
    requires Coupled(db) && RunsOk(db) && !how.Loss?
    ensures Coupled(EndTask(db, how, t)) && RunsOk(EndTask(db, how, t))
  {
    hide Coupled, RunsOk, FinalizeTask, ResolveTask;
    if t in db.tasks {
      var task := db.tasks[t];
      var given := GivenBack(task);
      if how.Withdrawal? {
        EndedTaskKeeps(db, t, task.(status := TaskCancelled, token := None, lease := None));
      } else if LeaseExpired(task, how.now) && task.attempt < task.maxAttempts {
        assert MildTasks(db, SetTask(db, t, given));
        MildTasksKeep(db, SetTask(db, t, given));
      } else if LeaseExpired(task, how.now) {
        EndedTaskKeeps(db, t, given);
        var mid := ResolveTask(SetTask(db, t, given), t);
        FinalizeIsMild(mid, t, false, how.now);
        MildTasksKeep(mid, FinalizeTask(mid, t, false, how.now));
      }
    }
  }

  lemma {:induction false} EndAllKeepsCoupling(db: Db, how: Ending, ids: seq<TaskId>)
    requires Coupled(db) && RunsOk(db) && !how.Loss?
    ensures Coupled(EndAll(db, how, ids)) && RunsOk(EndAll(db, how, ids))
  {
    hide Coupled, RunsOk, EndTask;
    if ids != [] {
      EndAllKeepsCoupling(db, how, ids[..|ids|-1]);
      EndKeepsCoupling(EndAll(db, how, ids[..|ids|-1]), how, ids[|ids|-1]);
    }
  }

  lemma CompleteTaskKeepsCoupling(db: Db, t: TaskId, runner: RunnerId, completion: CompletionId, token: Token,
                                  succeeded: bool, now: Time)
    requires Coupled(db) && RunsOk(db)
    ensures var db' := After(db, RunnerTasks.Complete(db, t, runner, completion, token, succeeded, now));
            Coupled(db') && RunsOk(db')
  {
    hide Coupled, RunsOk, FinalizeTask, ResolveTask, ResolveWait;
    if RunnerTasks.Complete(db, t, runner, completion, token, succeeded, now).Accepted? {
      var done := db.tasks[t].(status := if succeeded then TaskSucceeded else TaskFailed,
                               completion := Some(completion), lease := None);
      ResolveAfterFinalize(db, t, done, succeeded, now);
      EndedTaskKeeps(db, t, done);
      var mid := ResolveTask(SetTask(db, t, done), t);
      FinalizeIsMild(mid, t, succeeded, now);
      MildTasksKeep(mid, FinalizeTask(mid, t, succeeded, now));
    }
  }

  /** Deciding the verification and waking the run touch different tables, so their order does not matter. */
  lemma ResolveAfterFinalize(db: Db, t: TaskId, done: Task, succeeded: bool, now: Time)
    requires Coupled(db) && t in db.tasks
    requires done.wait == db.tasks[t].wait && done.verification == db.tasks[t].verification
    ensures ResolveTask(FinalizeTask(SetTask(db, t, done), t, succeeded, now), t)
            == FinalizeTask(ResolveTask(SetTask(db, t, done), t), t, succeeded, now)
  {
    hide Coupled, FinalizeTask;
    WaitFacts(db, t);
    if done.wait.Some? {
      FinalizeTables(SetTask(db, t, done), t, succeeded, now);
      FinalizeTables(ResolveTask(SetTask(db, t, done), t), t, succeeded, now);
      assert FinalizeTask(SetTask(db, t, done), t, succeeded, now) == SetTask(db, t, done);
    } else {
      FinalizeTables(SetTask(db, t, done), t, succeeded, now);
      assert ResolveTask(SetTask(db, t, done), t) == SetTask(db, t, done);
    }
  }
}
