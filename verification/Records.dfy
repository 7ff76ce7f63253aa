/** The control plane's tables as values. A row that the database keeps unique per action (execution,
    verification, compensation and its execution) is keyed by the action; a wait by the columns of its
    unique constraint (backend/app/storage/models.py). */
module Records {
  import opened Common
  import opened InvestigationGraph

  // ----- Actions ------------------------------------------------------------------------------

  datatype ActionStatus =
    | Ready | Dispatching | Running | Applied | Verifying | Succeeded | Failed
    | VerificationFailed | Compensating | Compensated | Escalated | Unknown | Cancelled

  datatype Action = Action(
    resource: ResourceId,
    capability: nat,
    rollback: Option<nat>,
    parameters: nat,
    status: ActionStatus,
    version: nat)

  /** An action or compensation execution; `token` is its resource fencing token. */
  datatype Execution<S> = Execution(
    runner: RunnerId,
    status: S,
    executionToken: Token,
    token: Token,
    lease: Option<Time>,
    completion: Option<CompletionId>)

  /** The one lock row of a resource; `released` stands for `released_at IS NOT NULL`. */
  datatype Lock = Lock(owner: ActionId, token: Token, expires: Time, released: bool, frozen: bool)

  datatype VerificationStatus = Queued | Checking | Passed | NotPassed

  /** `task` is the inverse of the task's unique `action_verification_id`. */
  datatype Verification =
    Verification(status: VerificationStatus, compensationRequired: bool, task: TaskId)

  datatype CompensationStatus =
    | CompPending | CompApproved | CompRejected | CompDispatching | CompRunning | CompSucceeded
    | CompFailed | CompUnknown | CompEscalated

  datatype Compensation = Compensation(
    status: CompensationStatus,
    key: nat,
    requestedBy: nat,
    expires: Time,
    version: nat)

  // ----- Runner tasks ---------------------------------------------------------------------------

  datatype TaskStatus = TaskQueued | TaskLeased | TaskSucceeded | TaskFailed | TaskCancelled

  /** `wait` is the inverse of the observation wait's unique `runner_task_id`. */
  datatype Task = Task(
    planStep: Option<PlanStepId>,
    verification: Option<ActionId>,
    wait: Option<WaitKey>,
    runner: Option<RunnerId>,
    status: TaskStatus,
    attempt: nat,
    maxAttempts: nat,
    token: Option<Token>,
    lease: Option<Time>,
    completion: Option<CompletionId>)

  // ----- Investigation runs ---------------------------------------------------------------------

  type Owner = nat
  type ExecutionId = nat
  datatype SubjectType = ApprovalSubject | CompensationSubject
  datatype Subject = Subject(kind: SubjectType, id: nat)

  datatype RunStatus = RunQueued | RunRunning | RunPaused | RunCompleted | RunFailed | RunCancelled

  /** What a checkpoint records. `payload` stands for the references and the summary, which are only compared. */
  datatype Content = Content(
    node: Node,
    iteration: nat,
    completed: seq<Key>,
    noProgress: nat,
    progressed: bool,
    next: NextAction,
    requests: nat,
    inputTokens: nat,
    outputTokens: nat,
    payload: nat)

  /** `writer` is a history variable: the worker whose executor wrote the checkpoint, if one did. */
  datatype CheckpointRow =
    CheckpointRow(id: ExecutionId, sequence: nat, content: Content, writer: Option<Owner>)

  /** `claimant` is a history variable: the worker of the latest runtime claim. */
  datatype Run = Run(
    graph: GraphVersion,
    status: RunStatus,
    owner: Option<Owner>,
    lease: Option<Time>,
    version: nat,
    maxIterations: nat,
    iteration: nat,
    sequence: nat,
    requestLimit: nat,
    requests: nat,
    inputTokens: nat,
    outputTokens: nat,
    log: seq<CheckpointRow>,
    claimant: Option<Owner>)

  datatype WaitKey = HitlWait(run: RunId, subject: Subject) | ObservationWait(run: RunId, execution: ExecutionId)
  datatype WaitStatus = Waiting | Resolved | WaitCancelled
  datatype Wait = Wait(status: WaitStatus, checkpoint: ExecutionId, task: Option<TaskId>)

  // ----- The database ----------------------------------------------------------------------------

  /** `grants[r]` lists the actions of the `resource_lock.acquired` events of resource r; the event of
      fencing token t is the one at position t - 1. */
  datatype Db = Db(
    actions: map<ActionId, Action>,
    executions: map<ActionId, Execution<ActionStatus>>,
    locks: map<ResourceId, Lock>,
    grants: map<ResourceId, seq<ActionId>>,
    verifications: map<ActionId, Verification>,
    compensations: map<ActionId, Compensation>,
    compExecutions: map<ActionId, Execution<CompensationStatus>>,
    tasks: map<TaskId, Task>,
    runs: map<RunId, Run>,
    waits: map<WaitKey, Wait>)

  const EMPTY := Db(map[], map[], map[], map[], map[], map[], map[], map[], map[], map[])

  datatype Settings = Settings(executionLease: nat, lockLease: nat, taskLease: nat, runLease: nat)

  /** Why a request is refused. `NotOffered` stands for a row handed in as a query's answer that the query could not
      have returned; no request of the system behaves like this. */
  datatype Code =
    | ActionNotFound | ActionExists | ActionNotLockable | ActionNotDispatchable | ActionNotCancellable
    | ActionVersionConflict | ActionNotReconcilable | ActionNotRunning
    | ExecutionNotFound | ExecutionFenced | ExecutionLeaseExpired | RunnerUnavailable
    | PolicyRevalidationFailed | LockConflict | LockReconciliationRequired | LockInvalid
    | LockNotFound | LockFenced | LockExpired | LockManualChangeForbidden
    | CompensationNotRequired | CompensationCapabilityUnsupported | CompensationParametersInvalid
    | CompensationIdempotencyConflict | CompensationAlreadyExists | CompensationNotFound
    | CompensationVersionConflict | CompensationAlreadyResolved | SelfApprovalForbidden
    | CompensationNotApproved | CompensationApprovalExpired | CompensationNotEscalatable
    | TaskNotFound | TaskInvalid | TaskNotLeased | TaskFenced | TaskLeaseExpired
    | RunNotFound | RunVersionConflict | RunNotRunning | RunLeaseLost | InvalidRunTransition
    | CheckpointIdempotencyConflict | NodeNotFound | InvalidIteration | DuplicateKey | InvalidKey
    | InvalidNoProgress | ReferenceNotFound | RequestBudgetExhausted
    | CheckpointNotFound | HitlWaitConflict | HitlSubjectNotPending | ObservationStepInvalid
    | NotOffered

  /** What a step answers. `Idle` found nothing to do, `Replayed` answered an earlier request again. */
  datatype Outcome =
    | Accepted(db: Db)
    | Idle(db: Db)
    | Replayed(db: Db)
    | Refused(code: Code)

  /** An error response rolls the request back. */
  function After(before: Db, o: Outcome): Db {
    if o.Refused? then before else o.db
  }
}
