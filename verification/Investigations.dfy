/** Investigation runs: runtime claims, checkpoints and status changes
    (backend/app/services/investigations.py), and observation waits
    (backend/app/services/investigation_observations.py). */
module Investigations {
  import opened Common
  import opened InvestigationGraph
  import opened Records
  import opened RunnerTasks
  import opened InvestigationHitl

  function SetRun(db: Db, r: RunId, run: Run): Db {
    db.(runs := db.runs[r := run])
  }

  function Create(db: Db, r: RunId, graph: GraphVersion, maxIterations: nat, requestLimit: nat): Outcome {
    if r in db.runs then Replayed(db)
    else Accepted(SetRun(db, r,
      Run(graph, RunQueued, None, None, 1, maxIterations, 0, 0, requestLimit, 0, 0, 0, [], None)))
  }

  // ----- The runtime lease -------------------------------------------------------------------------

  predicate Claimable(run: Run, now: Time) {
    || run.status.RunQueued?
    || (run.status.RunRunning? && (run.lease.None? || run.lease.value <= now))
  }

  /** `candidate` is the row `claim_runtime_candidate` selected. */
  function Claim(cfg: Settings, db: Db, owner: Owner, candidate: Option<RunId>, now: Time): Outcome {
    match candidate
    case None => Idle(db)
    case Some(r) =>
      if r !in db.runs || !Claimable(db.runs[r], now) then Refused(NotOffered)
      else Accepted(SetRun(db, r, db.runs[r].(status := RunRunning, owner := Some(owner),
                                              lease := Some(now + cfg.runLease),
                                              version := db.runs[r].version + 1, claimant := Some(owner))))
  }

  function RenewLease(cfg: Settings, db: Db, r: RunId, owner: Owner, now: Time): Outcome {
    if r !in db.runs || !db.runs[r].status.RunRunning? || db.runs[r].owner != Some(owner) then Refused(RunLeaseLost)
    else Accepted(SetRun(db, r, db.runs[r].(lease := Some(now + cfg.runLease))))
  }

  // ----- Checkpoints ---------------------------------------------------------------------------------

  /** The position of the checkpoint with an execution id, or the length of the log. */
  function Find(log: seq<CheckpointRow>, id: ExecutionId): (k: nat)
    ensures k <= |log|
    ensures k < |log| ==> log[k].id == id
    ensures k == |log| ==> forall i :: 0 <= i < |log| ==> log[i].id != id
  {
    if log == [] then 0
    else if log[0].id == id then 0
    else Find(log[1..], id) + 1
  }

  predicate HasDuplicate(keys: seq<Key>) {
    exists i, j :: 0 <= i < j < |keys| && keys[i] == keys[j]
  }

  /** What `write_checkpoint` asks of a new checkpoint, in its order; `referencesExist` is the answer of
      `_validate_checkpoint_references`. */
  function CheckpointError(run: Run, c: Content, referencesExist: bool): Option<Code> {
    if !run.status.RunRunning? then Some(RunNotRunning)
    else if !Registered(run.graph, c.node) then Some(NodeNotFound)
    else if c.iteration < run.iteration || c.iteration > run.maxIterations then Some(InvalidIteration)
    else if HasDuplicate(c.completed) then Some(DuplicateKey)
    else if exists k :: k in c.completed && !Registered(run.graph, k.node) then Some(InvalidKey)
    else if c.noProgress > c.iteration + 1 then Some(InvalidNoProgress)
    else if !referencesExist then Some(ReferenceNotFound)
    else if run.requests + c.requests > run.requestLimit then Some(RequestBudgetExhausted)
    else None
  }

  /** The run with one more checkpoint. */
  function Recorded(run: Run, id: ExecutionId, c: Content, writer: Option<Owner>): Run {
    run.(iteration := c.iteration, sequence := run.sequence + 1,
         requests := run.requests + c.requests,
         inputTokens := run.inputTokens + c.inputTokens,
         outputTokens := run.outputTokens + c.outputTokens,
         version := run.version + 1,
         log := run.log + [CheckpointRow(id, run.sequence + 1, c, writer)])
  }

  function WriteCheckpoint(db: Db, r: RunId, id: ExecutionId, expectedVersion: nat, c: Content,
                           referencesExist: bool, writer: Option<Owner>): Outcome
  {
    if r !in db.runs then Refused(RunNotFound)
    else
      var run := db.runs[r];
      var k := Find(run.log, id);
      if k < |run.log| then
        if run.log[k].content != c then Refused(CheckpointIdempotencyConflict) else Replayed(db)
      else if run.version != expectedVersion then Refused(RunVersionConflict)
      else match CheckpointError(run, c, referencesExist)
        case Some(code) => Refused(code)
        case None => Accepted(SetRun(db, r, Recorded(run, id, c, writer)))
  }

  /** What a node asks for beside its checkpoint. `pending` and `stepRunning` are the answers of the checks on
      the subject and on the plan step, `task` is a fresh id. */
  datatype Interrupt =
    | NoInterrupt
    | Hitl(subject: Subject, pending: bool)
    | Observation(task: TaskId, planStep: PlanStepId, stepRunning: bool, maxAttempts: nat)

  function StartObservation(db: Db, r: RunId, id: ExecutionId, i: Interrupt): Outcome
    requires i.Observation? && r in db.runs
  {
    var w := ObservationWait(r, id);
    if w in db.waits then Replayed(db)
    else if !db.runs[r].status.RunRunning? then Refused(RunNotRunning)
    else if !i.stepRunning then Refused(ObservationStepInvalid)
    else if i.maxAttempts == 0 then Refused(TaskInvalid)
    else if i.task in db.tasks then Refused(NotOffered)
    else
      var task := Task(Some(i.planStep), None, Some(w), None, TaskQueued, 0, i.maxAttempts, None, None, None);
      Accepted(db.(tasks := db.tasks[i.task := task],
                   waits := db.waits[w := Wait(Waiting, id, Some(i.task))],
                   runs := db.runs[r := Paused(db.runs[r])]))
  }

  /** `_write_checkpoint` of the executor: only while it owns the run, and together with the wait. */
  function ExecutorCheckpoint(db: Db, r: RunId, owner: Owner, id: ExecutionId, c: Content, referencesExist: bool,
                              i: Interrupt): Outcome
  {
    if r !in db.runs || db.runs[r].owner != Some(owner) then Refused(RunLeaseLost)
    else
      var written := WriteCheckpoint(db, r, id, db.runs[r].version, c, referencesExist, Some(owner));
      if written.Refused? || i.NoInterrupt? then written
      else if r !in written.db.runs then Refused(RunNotFound)
      else if i.Hitl? then
        StartWait(written.db, r, id, i.subject, written.db.runs[r].version, i.pending)
      else StartObservation(written.db, r, id, i)
  }

  // ----- Status changes ----------------------------------------------------------------------------------

  predicate AllowedTransition(current: RunStatus, target: RunStatus) {
    match current
    case RunQueued => target.RunRunning? || target.RunCancelled?
    case RunRunning => target.RunPaused? || target.RunCompleted? || target.RunFailed? || target.RunCancelled?
    case RunPaused => target.RunRunning? || target.RunFailed? || target.RunCancelled?
    case _ => false
  }

  predicate TerminalRun(status: RunStatus) {
    status.RunCompleted? || status.RunFailed? || status.RunCancelled?
  }

  predicate WaitsForRun(db: Db, w: WaitKey, r: RunId) {
    w.run == r && WaitsFor(db, w)
  }

  function Withdrawn(task: Task): Task {
    if Live(task) then task.(status := TaskCancelled, token := None, lease := None) else task
  }

  function CancelledWaits(waits: map<WaitKey, Wait>, gone: set<WaitKey>): map<WaitKey, Wait> {
    map w | w in waits :: if w in gone then waits[w].(status := WaitCancelled) else waits[w]
  }

  function WithdrawnTasks(tasks: map<TaskId, Task>, gone: set<WaitKey>): map<TaskId, Task> {
    map t | t in tasks ::
      if tasks[t].wait.Some? && tasks[t].wait.value in gone then Withdrawn(tasks[t]) else tasks[t]
  }

  /** The waits of `gone` are cancelled, each with the live task it waits for. */
  function CancelSet(db: Db, gone: set<WaitKey>): Db {
    db.(waits := CancelledWaits(db.waits, gone), tasks := WithdrawnTasks(db.tasks, gone))
  }

  /** A cancelled run takes its waits and their live tasks with it. */
  function CancelWaits(db: Db, r: RunId): Db {
    CancelSet(db, set w | w in db.waits && WaitsForRun(db, w, r))
  }

  function Transition(db: Db, r: RunId, expectedVersion: nat, target: RunStatus): Outcome {
    if r !in db.runs then Refused(RunNotFound)
    else
      var run := db.runs[r];
      if run.version != expectedVersion then Refused(RunVersionConflict)
      else if !AllowedTransition(run.status, target) then Refused(InvalidRunTransition)
      else
        var stops := TerminalRun(target) || target.RunPaused?;
        var moved := run.(status := target, version := run.version + 1,
                          owner := if stops then None else run.owner,
                          lease := if stops then None else run.lease);
        Accepted(if target.RunCancelled? then CancelWaits(SetRun(db, r, moved), r) else SetRun(db, r, moved))
  }

  /** `_finish` of the runtime worker: only the worker that owns the run moves it, and to where it already is
      only without an owner. */
  function FinishRun(db: Db, r: RunId, owner: Owner, target: RunStatus): Outcome {
    if r !in db.runs then Refused(RunNotFound)
    else
      var run := db.runs[r];
      if run.status == target && run.owner.None? then Replayed(db)
      else if run.owner != Some(owner) then Refused(RunLeaseLost)
      else Transition(db, r, run.version, target)
  }
}
