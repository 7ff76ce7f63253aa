# OpsPilot control plane: a verified model

OpsPilot's control plane is a set of lease-and-fencing protocols over shared tables. A request to a service is one
atomic step; an error response rolls the step back. This project models the protocols and proves what every step
keeps, what holds in every reachable state, and what holds over whole runs. The five parts are:

1. **Actions under resource locks.** Dispatch, claim, renewal, completion, expiry to `unknown`, reconciliation,
   verification by a runner task, and compensation under the frozen lock.
2. **Investigation runs.** The crash-recoverable graph executor, its checkpoints and budgets, runtime leases, and the
   waits that pause a run for a human or for an observation.
3. **The runner plane.** The leased task queue with bounded attempts, the runner's completion retries, and access-token
   rotation over a network that loses responses.
4. **Authorisation.** First-match policy, quotas, approvals with editable parameters, single-use decisions. Plans and
   the choice of their next step are beside it.
5. **Runner-side reliability.** The circuit breaker, the retry loop with a deadline, UTF-8 truncation.

## How the model is built

- `Records.Db` holds the tables as values. `ActionDispatcher`, `ResourceLocks`, `ActionVerifications`,
  `Compensations`, `RunnerTasks`, `Investigations` and `InvestigationHitl` specify each request as a function from
  tables to an `Outcome`: accepted, idle, replayed or refused.
- `Tables.Database` is the mutable database. The service classes (`ActionServices`, `DispatcherService`,
  `CompensationServices`, `TaskServices`, `RunServices`) update it in place, with the loops of the code, and each
  method is proved to reach exactly the tables its specification function gives.
- `System` puts all requests together as one state machine. A run is any sequence of steps with any arguments and any
  clock readings; the theorems in `Exclusion`, `LeaseMargins`, `Fencing`, `Outcomes`, `TaskQueue`, `RunHistory` and
  `Versions` speak about all of them. `Agreement` states for the services what every request keeps.
- `Acceptance` states exactly when each request is accepted and `Effects` what an accepted one does, both in terms of
  the rows and of the request's own arguments; the services promise these effects.
- An action with its execution, lock, verification and compensation is a `Case` (`ActionInvariants`). `CaseSteps`
  proves each change right on one case; the `...Preservation` and `...Steps` modules lift that to the tables.
- Three history variables are added: `Lock` acquisitions are listed in `grants` (the `resource_lock.acquired` events),
  a run records its latest `claimant`, a checkpoint its `writer`. The breaker has a ghost `history` of its calls.
- `AgentRuntime.Walk` is one `execute` of the graph; `RunLives.Live` is the checkpoint log after any number of
  executions and crashes; `ExecutionLength` counts the visits of one execution and `ProgressBudget` the passes without
  progress. `Authorization` is a state machine of its own, as are `RunnerTokens`, `Plans` and `Reliability`.

## What is found false, and exactly when it holds

- Resource exclusion needs a lock lease at least as long as the execution lease; the settings do not enforce it
  (backend/app/core/config.py:65-66, both 120 by default). `LeaseMargins.ExclusionNeedsTheMargin` is the equivalence.
- The internal lock acquisition does not freeze expired executions first (backend/app/services/resource_locks.py:36-51).
  `Exclusion.ExclusionIsKeptExactly`: it is the only step that breaks exclusion, and it does so whenever it takes over
  the expired lock of an execution that still runs.
- A restart from a checkpoint is not the continuation of the run in two cases
  (backend/app/services/agent_runtime.py:225-235): `pause` requested by a node without an interrupt edge, and
  `continue` requested by the last node. `AgentRuntime.ResumeIsContinuation` is the equivalence,
  `AgentRuntime.PauseAfterTheInterruptIsLost` a concrete run.
- `transition_run` from paused to running or failed forgets a waiting wait
  (backend/app/services/investigations.py:190-216), and `expire_stale_runners` fails an exhausted task without waking
  the run that waits for it (backend/app/services/observability.py:50-59).
  `RunPreservation.TransitionKeepsCoupling`, `TaskCoupling.LossKeepsCoupling` and `RunHistory.CouplingIsKeptExactly`
  are equivalences.
  `ReachableFailures` holds a run of the system for each of these failures and for the takeover above.
- A checkpoint can exceed the run's iteration limit when executions crash after `continue` of the last node; the store
  then refuses it. `ExecutorContract.CheckpointsAreAccepted` says exactly when, `ExecutorContract.EndlessRunsAreRefused`
  gives such a life for every limit, and `RunLives.ProperLivesKeepTheOrder` excludes it for handlers that never answer
  `continue` there.
- A heartbeat that arrives late, carrying a token the server still accepts although the runner has read the response of
  a later rotation, makes the stored token invalid. `RunnerTokens.LateHeartbeatLocksOut` is the exact condition. With
  heartbeats in order, `RunnerTokens.RotationKeepsRunnersIn` gives the exact settings.
- The graph's configured recursion limit is 1000 (backend/app/services/agent_runtime.py:269), but a run may ask for 200
  iterations (backend/app/schemas/investigations.py:17). `ExecutionLength.RecursionLimitSuffices` is the equivalence:
  it is enough up to 248 iterations of graph-v1 and 198 of graph-v2.

## Model

| member | source | states |
|---|---|---|
| System.StepKeeps | backend/app/services/action_dispatcher.py:58-277 | Every request of every service, with any arguments, keeps action, execution, lock, verification, compensation and verification task in agreement, and undoes nothing: statuses follow the life cycle, tokens and versions only grow |
| System.StepLives | backend/app/services/runner_tasks.py:181-364 | Every request keeps task and run rows, counts a lease exactly when a task is leased, keeps ended tasks and runs ended, and only appends to checkpoint logs |
| System.Reachable | backend/app/services/action_dispatcher.py:58-277 | In every reachable state the records agree, every checkpoint log adds up, and waits and tasks point at each other |
| System.GrowsAlong | backend/app/services/action_dispatcher.py:58-277 | Between any two moments of a run nothing is undone |
| Acceptance.AcceptedExactly | backend/app/services/action_dispatcher.py:58-322 | Every request of every service, on any tables, is accepted if and only if the rows before it admit it: who may act on what, with which tokens, versions, leases and statuses. The recovery inside dispatch and claim is worked out: dispatch takes no lock whose owner's execution has lapsed |
| Exclusion.ExclusionIsKeptExactly | backend/app/services/resource_locks.py:36-127 | With lock lease >= execution lease, from any state with exclusion, a step keeps every in-doubt action in possession of its lock if and only if it is not an internal acquisition that takes over the expired lock of a running action |
| Exclusion.TakeoverDispossesses | backend/app/services/resource_locks.py:96-127 | Such a takeover leaves the running action without the lock it runs under |
| Exclusion.ReachableExclusion | backend/app/services/action_dispatcher.py:58-92 | Exclusion in every state reached without such a takeover |
| Exclusion.ResourceExclusion | backend/app/services/action_dispatcher.py:58-277 | Two actions in doubt (running, verifying, verification failed, unknown, compensating or escalated) on one resource are the same action, and the resource's lock is unreleased, owned by it and carries its execution's token |
| Exclusion.DispatchOnlyExcludes | backend/app/services/action_dispatcher.py:58-92 | Exclusion in every run that takes locks through dispatch only |
| ReachableFailures.TakeoverIsReachable | backend/app/services/resource_locks.py:36-127 | For all lease settings, a run of five steps in which the internal acquisition takes over the lock of a running action and exclusion is lost |
| LeaseMargins.ExclusionNeedsTheMargin | backend/app/core/config.py:65-66 | Exclusion holds over all runs that take locks through dispatch if and only if the lock lease is at least the execution lease |
| Fencing.AcquisitionRaisesToken | backend/app/services/resource_locks.py:96-127 | A resource's token never falls, and rises whenever the owner changes or a released lock is taken again |
| Fencing.TokenBelongsToOneAction | backend/app/services/resource_locks.py:96-127 | A token once issued belongs to the same action at every later moment |
| Fencing.ExecutionsHaveDistinctTokens | backend/app/services/action_dispatcher.py:58-92 | No two executions on one resource carry the same token, in any reachable state |
| Fencing.DeadStaysDead | backend/app/services/resource_locks.py:182-197 | A superseded or released token is never live again |
| Fencing.AcceptedIsLive | backend/app/services/action_dispatcher.py:296-322 | An accepted claim, renewal, completion or manual lock change, of an action or a compensation, carries the token under which its action holds the unreleased lock at that moment |
| Fencing.StaleTokenIsRefused | backend/app/services/compensations.py:431-460 | Over whole runs, without any lease assumption: after a token was superseded or released, no request carrying it is accepted |
| Outcomes.CompletionHappensOnce | backend/app/services/action_dispatcher.py:159-211 | After an accepted completion, however much later and whatever happens in between, the same completion id is answered without any change and any other id is refused |
| Outcomes.CompensationCompletionHappensOnce | backend/app/services/compensations.py:316-378 | The same for compensation executions |
| Outcomes.OnlyReconciliationSettles | backend/app/services/action_dispatcher.py:238-277 | No step but its own reconciliation moves an action out of `unknown` |
| Outcomes.UnknownUntilReconciled | backend/app/services/action_dispatcher.py:213-236 | Over whole runs, an expired execution's outcome stays open until a reconciliation of that action |
| Outcomes.LateCompletionDecidesNothing | backend/app/services/action_dispatcher.py:159-211 | A completion that arrives at any time after the expiry is not accepted |
| Outcomes.SuccessHasACause | backend/app/services/runner_tasks.py:254-364 | An action becomes succeeded only by an accepted completion of its verification's task that reports success, with the verification passing in that step, or by reconciling it from `unknown` as succeeded |
| Effects.CompletionSettles | backend/app/services/action_dispatcher.py:159-211 | The reported result decides: success exactly if afterwards the action verifies, the execution is applied, the lock is kept frozen with its token, and a new queued verification with a new task of three attempts exists; failure exactly if action and execution failed, the lock is free, and no verification or task was added |
| Effects.TaskCompletionSettles | backend/app/services/runner_tasks.py:254-364 | The reported result decides a task and its verification: a failed verification with attempts left is queued again while its action goes on verifying; otherwise the task succeeds exactly if success was reported, and the verification passes with it, or fails it under the kept lock |
| Effects.EndingSettles | backend/app/services/runner_tasks.py:443-490 | A task whose lease ran out or whose runner was lost is queued again if an attempt is left, with action and verification as they were, and otherwise fails together with its verification; a withdrawn plan task is cancelled; any other task is left alone |
| Effects.ReconciliationSettles | backend/app/services/action_dispatcher.py:238-277 | The stated outcome becomes the outcome of action and execution, and a lock the action still owns is free afterwards |
| Effects.RecoveryLapses | backend/app/services/action_dispatcher.py:213-236 | Recovery changes exactly the executions whose lease is over: they and their actions become unknown and their locks are kept frozen; all others stay |
| Effects.ClaimStarts | backend/app/services/action_dispatcher.py:94-132 | After a claim the runner executes the action under both leases, each exactly one period long |
| Effects.RenewalExtends | backend/app/services/action_dispatcher.py:134-157 | After a renewal the runner still executes the action under its own lock and token, and both leases end exactly one period later than now |
| Effects.CompensationSettles | backend/app/services/compensations.py:316-378 | Success compensates the action and frees the lock; failure escalates both and keeps the lock frozen; nothing else answers either report |
| Effects.DecisionSettles | backend/app/services/compensations.py:139-196 | A compensation is approved exactly if approval was asked for before the expiry, by another than the requester and under a policy that allows it, and rejected otherwise |
| Effects.CompensationDispatchStarts | backend/app/services/compensations.py:198-254 | A dispatched compensation waits for the selected runner under the action's frozen lock and with its token |
| Effects.TransitionSettles | backend/app/services/investigations.py:151-237 | A run moves along the table of transitions, one version on; it keeps owner and lease only while it runs; cancelling ends its waits |
| Outcomes.VerifyingIsNeverStranded | backend/app/services/action_verifications.py:38-172 | In every reachable state a verifying action has an applied execution, a frozen unreleased lock with its token, an open verification, and exactly one task, which is live and, if queued, has attempts left |
| Outcomes.SettledStays | backend/app/services/action_dispatcher.py:159-277 | Succeeded, failed, cancelled, compensated and escalated actions keep their status for ever |
| Outcomes.VerificationIsFixed | backend/app/services/action_verifications.py:38-96 | An execution never gets a second verification or another verification task |
| Outcomes.LeasedVerificationIsRunning | backend/app/services/action_verifications.py:98-107 | In every reachable state a verification whose task a runner holds is running, never queued, and its action is verifying |
| Versions.StaleVersionIsRefused | backend/app/services/compensations.py:510-515 | Optimistic concurrency over whole runs: a request made on an earlier version is not accepted once anything in the row of its action, compensation or run has changed, checkpoint writes and repeated claims included, a renewed run lease excepted |
| TaskQueue.AttemptsAreLeases | backend/app/services/runner_tasks.py:181-234 | In every run a task's attempt counter equals the number of steps that leased it |
| TaskQueue.LeasesAreBounded | backend/app/services/runner_tasks.py:443-490 | At most max_attempts leases per task; a queued task has had fewer, a leased one at least one |
| TaskQueue.FinishedTaskStays | backend/app/services/runner_tasks.py:254-364 | A succeeded, failed or cancelled task keeps its status and completion and is never leased again, verification retries included |
| TaskQueue.ReportsComeFromTheHolder | backend/app/services/runner_tasks.py:236-364 | Over whole runs a renewal or completion of a task is accepted only from the runner to which its latest lease gave it, under the token of that claim, and before the lease ends |
| RunHistory.LogIsConserved | backend/app/services/investigations.py:292-475 | In every reachable state checkpoint sequences are exactly 1..last_checkpoint_sequence, ids are distinct, iterations never decrease, and the request and token totals equal the sums over the log, with requests within the limit |
| RunHistory.ChargesAreTheAppendedCheckpoints | backend/app/services/investigations.py:292-475 | Between any two moments the log only grows and the totals grow by exactly the appended checkpoints: replays charge nothing |
| RunHistory.RunGrowsAlong | backend/app/services/investigations.py:151-237 | A run keeps its graph and limits, its log only grows, its version rises with every change of its row but a renewed lease, and terminal statuses are final |
| RunHistory.ClaimantIsTheLatest | backend/app/storage/repositories.py:2256-2294 | The recorded claimant of a run is the worker of the latest runtime claim in the history |
| RunHistory.CheckpointsComeFromTheLatestClaim | backend/app/services/agent_runtime.py:298-324 | A checkpoint the executor gets accepted comes from the worker of the latest claim, and changes the log by at most that one row with that worker and content |
| RunHistory.CouplingIsKeptExactly | backend/app/services/investigation_observations.py:52-246 | From any coupled state a step keeps runs, waits and tasks coupled if and only if it is neither a transition that forgets a waiting wait nor the loss of a runner that strands a waiting run |
| RunHistory.ReachableCoupling | backend/app/services/investigation_hitl.py:34-166 | The coupling holds in every state reached without those two steps |
| RunHistory.WaitingRunIsParked | backend/app/services/investigation_observations.py:130-192 | In such states a run has at most one waiting wait, is paused and unowned while it has one, and an observation's task is queued or leased |
| Agreement.StepAgrees | backend/app/services/investigation_observations.py:52-246 | Every request keeps records, logs and links in agreement, and from a coupled state reaches a coupled one if and only if it neither forgets nor strands a wait |
| Agreement.HitlRoundTrip | backend/app/services/investigation_hitl.py:34-166 | Resolving the subject a run was paused for restores the run, queued and two versions on, with its log and budgets as they were, and changes nothing but its wait |
| Agreement.ObservationRoundTrip | backend/app/services/investigation_observations.py:52-246 | The same for a run that was paused for a task |
| RunPreservation.TransitionKeepsCoupling | backend/app/services/investigations.py:151-237 | A transition keeps the coupling if and only if it is refused, cancels the run, or finds no waiting wait |
| TaskCoupling.LossKeepsCoupling | backend/app/services/observability.py:40-59 | Declaring a runner lost keeps the coupling if and only if none of its exhausted leased tasks has a waiting run |
| ReachableFailures.ForgottenWaitIsReachable | backend/app/services/investigations.py:190-216 | A run of four steps in which a paused run is moved to running while its wait still waits |
| ReachableFailures.StrandedRunIsReachable | backend/app/services/observability.py:50-59 | A run of five steps in which the task a run waits for fails with its lost runner and the run goes on waiting |
| AgentRuntime.VisitsAreBounded | backend/app/services/agent_runtime.py:163-235 | One execute, from any start node and whatever the handler answers, visits a number of nodes bounded by the iteration limit alone; what the no-progress limit adds is stated by the rows of `ProgressBudget` |
| ExecutionLength.RestlessRunsAreThisLong | backend/app/services/agent_runtime.py:237-271 | A handler that always continues makes exactly 5 + 4n (graph-v1) or 5 + 5n (graph-v2) visits for n iterations, and one more if it finishes in the last iteration |
| ExecutionLength.LongestExecution | backend/app/services/agent_runtime.py:130-235 | From the start no handler visits more than 6 + 4n or 6 + 5n nodes, and one handler visits exactly as many |
| ExecutionLength.RecursionLimitSuffices | backend/app/services/agent_runtime.py:237-271 | The recursion limit of 1000 is enough for every handler if and only if the run allows at most 248 iterations of graph-v1 or 198 of graph-v2 |
| ProgressBudget.BudgetIsWhatWasTold | backend/app/services/agent_runtime.py:190-223 | Over every life, with any handlers, crashes and resolved waits: each checkpoint records what its handler answered and the number of `maybe_replan` answers without progress since the last one with progress; `maybe_replan` stops for no progress once that number reaches the limit, for the iteration limit if another pass was asked for and none is left, and otherwise passes the answer on |
| ProgressBudget.StopsExactly | backend/app/services/agent_runtime.py:195-202 | With handlers that answer `continue`, `finish`, `pause` or nothing, a checkpoint stops for no progress if and only if it is one of `maybe_replan` at which the count has reached the limit, and for the iteration limit if and only if another pass was asked for below that count and none is left |
| ProgressBudget.StoppedForGood | backend/app/services/agent_runtime.py:225-271 | After such a stop no execution writes anything until a wait is resolved |
| ProgressBudget.IdlePassesAreLimited | backend/app/services/agent_runtime.py:190-202 | Without resolved waits no life has more passes without progress in a row than the limit, and the life ends with the last of them |
| ProgressBudget.IdleRunsAreThisLong | backend/app/services/agent_runtime.py:163-235 | Whatever else a handler answers, if no pass progresses an execution makes at most 5 + 4p or 5 + 5p visits, with p the smaller of the two limits, and one more only if the iteration limit is the smaller; a handler that always asks for another pass makes exactly that many, and stops for no progress if and only if that limit is at most the iteration limit |
| AgentRuntime.ThroughMembers | backend/app/services/agent_runtime.py:130-161 | The uninterrupted order up to a node contains exactly the keys of the context nodes, of earlier iterations, and of this iteration up to that node |
| AgentRuntime.ThroughDistinct | backend/app/services/agent_runtime.py:130-161 | No key occurs twice in the uninterrupted order |
| AgentRuntime.TraceTail | backend/app/services/agent_runtime.py:163-223 | Every checkpoint of a walk is well formed, and what the walk writes after it is exactly the continuation from that checkpoint |
| AgentRuntime.FastForward | backend/app/services/agent_runtime.py:163-223 | Replaying completed nodes writes nothing and arrives at any later node of the iteration with the same result |
| AgentRuntime.ResumeIsContinuation | backend/app/services/agent_runtime.py:237-271 | A restart from a checkpoint without a resolved wait writes exactly the remaining checkpoints of the uninterrupted execution and ends in the same state, if and only if the checkpoint is not one of the two stuck kinds |
| AgentRuntime.ResumeAfterResolvedWait | backend/app/services/agent_runtime.py:250-262 | Once a wait is resolved, a restart executes first the node that follows the checkpoint's node without a requested action, in the same iteration |
| AgentRuntime.PauseGoesOnAtTheNextNode | backend/app/services/agent_runtime.py:233-235 | A paused run stops at once without the answer and goes on at the following node, in the same iteration, with it |
| AgentRuntime.PauseAfterTheInterruptIsLost | backend/app/services/agent_runtime.py:225-235 | A concrete checkpoint from which a restart runs nothing although one node was left |
| AgentRuntime.RestartStaysBelowTheLimit | backend/app/services/agent_runtime.py:163-271 | Every checkpoint of a restart stays below the iteration limit if and only if the restart is not from a `continue` of the last node in the last iteration |
| RunLives.ContractHoldsAcrossCrashes | backend/app/services/agent_runtime.py:163-271 | Whatever the handlers answer, over any number of executions, crashes and resolved waits and for any limits: every checkpoint extends the keys of the one before by its own, all unique and registered, the iteration never falls, and no_progress <= iteration + 1 |
| RunLives.NoKeyRunsTwice | backend/app/services/agent_runtime.py:163-223 | In every such life no node is executed twice in one iteration, and completed keys only grow |
| RunLives.ProperLivesKeepTheOrder | backend/app/services/agent_runtime.py:163-271 | If no handler answers `continue` at the last node, every checkpoint of every life has exactly the keys of an uninterrupted run up to its node and an iteration below the limit |
| RunLives.LimitIsPassed | backend/app/services/agent_runtime.py:225-271 | A handler that does answer `continue` there goes one iteration further with every execution that crashes after it: for every limit there is a life whose next checkpoint lies beyond it, with all earlier ones within |
| RunLives.CrashesLeaveThePrefix | backend/app/services/agent_runtime.py:237-271 | However often one handler's execution is interrupted, the log is a prefix of the uninterrupted one and a restart completes it exactly |
| ExecutorContract.CheckpointsAreAccepted | backend/app/services/investigations.py:378-421 | Every checkpoint of every life, under any handlers, passes the node, key and no-progress checks; it is refused for its iteration if and only if that is beyond the run's limit, and otherwise only for a missing reference or an exhausted request budget |
| ExecutorContract.EndlessRunsAreRefused | backend/app/services/investigations.py:378-421 | The refusal is real: after maxIterations + 1 crashes that each followed `continue` of the last node, with all checkpoints within the limit, the next checkpoint is refused for its iteration |
| ActionServices.ResourceLockService.GetForAction | backend/app/storage/repositories.py:491-503 | Finds the resource of the unreleased lock an action owns, exactly when there is one |
| ActionServices.ResourceLockService.Acquire | backend/app/services/resource_locks.py:36-127 | Grants the lock only if it is new, or unfrozen and released or expired; the token is then the next one of the resource, and until the new lease ends every acquisition for another action is refused; everything else changes nothing. Agreement and coupling are kept |
| ActionServices.ResourceLockService.OwnedActive | backend/app/services/resource_locks.py:199-219 | Refuses a manual change of the lock in the order of the code: not ready, no lock, other token, expired; otherwise returns the lock's row |
| ActionServices.ResourceLockService.Renew | backend/app/services/resource_locks.py:173-180 | Moves only the expiry of the owned live lock; otherwise refused without change |
| ActionServices.ResourceLockService.Release | backend/app/services/resource_locks.py:182-197 | Releases the owned live lock now and keeps its owner and token; otherwise refused without change |
| ActionServices.ActionVerificationService.FinalizeTask | backend/app/services/action_verifications.py:109-172 | A failed verification task with attempts left is queued again; otherwise verification, action, execution and lock are decided together; a decided verification is left alone |
| ActionServices.ActionVerificationService.Decide | backend/app/services/action_verifications.py:137-172 | Passed: the action succeeds and the lock is released and thawed. Not passed: the action fails verification, keeps the frozen lock and asks for compensation |
| DispatcherService.ActionDispatcherService.RecoverExpired | backend/app/services/action_dispatcher.py:213-236 | The loop over expired executions freezes their locks and makes executions and actions unknown; the result is the same in any order of the rows |
| DispatcherService.ActionDispatcherService.Create | backend/app/services/actions.py:108-122 | A new row keeps what it was created with and starts ready with version 1; the records still agree |
| DispatcherService.ActionDispatcherService.Cancel | backend/app/services/actions.py:153-212 | Cancels a ready action of the expected version and releases the lock it holds; otherwise refused without change; the records still agree |
| DispatcherService.ActionDispatcherService.Dispatch | backend/app/services/action_dispatcher.py:58-92 | Recovery first, then the lock and the execution with the lock's token, or a refusal that rolls the recovery back too; the records still agree |
| DispatcherService.ActionDispatcherService.Claim | backend/app/services/action_dispatcher.py:94-132 | A candidate runs only under its own unreleased lock with the execution's token; both leases are set; the records still agree |
| DispatcherService.ActionDispatcherService.OwnedRunning | backend/app/services/action_dispatcher.py:296-322 | Refuses in the order of the code: missing or foreign execution, other tokens, not running, lease over, lock not owned with this token; otherwise returns the lock's row |
| DispatcherService.ActionDispatcherService.Renew | backend/app/services/action_dispatcher.py:134-157 | Both leases end exactly one period later than now, or the renewal is refused without change |
| DispatcherService.ActionDispatcherService.Complete | backend/app/services/action_dispatcher.py:159-211 | A reported success freezes the lock and creates a queued verification with its task, a reported failure fails the action and frees the lock, and nothing else answers either; a repeated completion id changes nothing |
| DispatcherService.ActionDispatcherService.Reconcile | backend/app/services/action_dispatcher.py:238-277 | Settles an unknown action of the expected version, with its execution, and releases the lock it still owns; otherwise refused without change |
| CompensationServices.CompensationService.Create | backend/app/services/compensations.py:67-137 | A pending compensation for an action that failed verification and supports rollback; the same key is answered again, every other case refused in the order of the code |
| CompensationServices.CompensationService.Decide | backend/app/services/compensations.py:139-196 | Decides a pending compensation of the expected version and wakes the run that waits for it: an expired one is rejected, the requester cannot approve it, and approval needs a policy that still allows the action |
| CompensationServices.CompensationService.RecoverExpired | backend/app/services/compensations.py:408-429 | The loop over expired compensation executions makes execution and compensation unknown, in any order of the rows; the lock stays frozen |
| CompensationServices.CompensationService.Dispatch | backend/app/services/compensations.py:198-254 | An approved compensation takes over the action's frozen lock with its token; everything else is refused without change |
| CompensationServices.CompensationService.Claim | backend/app/services/compensations.py:256-292 | Runs a dispatched compensation only under the action's own frozen lock with that token |
| CompensationServices.CompensationService.Owned | backend/app/services/compensations.py:431-460 | Refuses in the order of the code: foreign execution, other tokens, not running, lease over, lock not owned with this token |
| CompensationServices.CompensationService.Renew | backend/app/services/compensations.py:294-314 | Extends both leases, or is refused without change |
| CompensationServices.CompensationService.Complete | backend/app/services/compensations.py:316-378 | A reported success compensates the action and frees the lock; a reported failure escalates it and keeps the lock frozen; a repeated completion id changes nothing |
| CompensationServices.CompensationService.Escalate | backend/app/services/compensations.py:380-406 | Escalates the expected version of an approved, rejected, failed or unknown compensation together with its action, or is refused without change |
| TaskServices.RunnerTaskService.Create | backend/app/services/runner_tasks.py:65-179 | A new task is live with no attempt made, the attempts, plan step and runner asked for, and no run waiting for it; at least one attempt is asked for; agreement and coupling are kept |
| TaskServices.RunnerTaskService.RecoverExpired | backend/app/services/runner_tasks.py:443-490 | Row by row: an expired task with attempts left is queued again, an exhausted one fails, its verification is finalised and its waiting run requeued |
| TaskServices.RunnerTaskService.Claim | backend/app/services/runner_tasks.py:181-234 | Recovery first; after a lease the runner holds that task and no other, under its token and until one lease period has passed, and its verification is running; agreement and coupling are kept, and a refusal undoes the recovery too |
| TaskServices.RunnerTaskService.Renew | backend/app/services/runner_tasks.py:236-252 | The holder of the live lease keeps its attempt, and the lease expires exactly one lease period later; agreement and coupling are kept |
| TaskServices.RunnerTaskService.Complete | backend/app/services/runner_tasks.py:254-364 | The holder's first completion is stored and the reported result settles the task and its verification; no run is left waiting for the task; the same id is answered again without change; agreement and coupling are kept |
| TaskServices.RunnerTaskService.EndRows | backend/app/services/observability.py:40-59 | The rows of a lost runner are queued again or failed, those of an ended plan cancelled, one by one; the records still agree |
| RunServices.InvestigationHITLService.StartWait | backend/app/services/investigation_hitl.py:34-115 | The run is paused and unowned with its log kept and its wait waiting, or nothing changes; agreement is kept, and a coupled state stays coupled |
| RunServices.InvestigationHITLService.ResolveSubject | backend/app/services/investigation_hitl.py:117-166 | Afterwards the run found no longer waits for the subject and, if it was paused, is queued with its log kept; agreement and coupling are kept |
| RunServices.InvestigationObservationService.StartWait | backend/app/services/investigation_observations.py:52-192 | The run is paused and unowned, and waits for a new live task; agreement and coupling are kept |
| RunServices.InvestigationObservationService.ResolveTask | backend/app/services/investigation_observations.py:194-246 | In a coupled state no run waits for the task afterwards; tasks and logs are untouched; agreement and coupling are kept |
| RunServices.InvestigationService.CreateRun | backend/app/services/investigations.py:60-149 | A new run has the graph and limits asked for, an empty log, no claimant, and can be claimed at any time; agreement and coupling are kept |
| RunServices.InvestigationService.ClaimNext | backend/app/storage/repositories.py:2256-2294 | The worker owns the run, and nobody can claim it before exactly one lease period has passed; agreement and coupling are kept |
| RunServices.InvestigationService.RenewLease | backend/app/storage/repositories.py:2296-2311 | Succeeds exactly for the owner of a running run, and then nobody can claim it before exactly one lease period has passed; agreement and coupling are kept |
| RunServices.InvestigationService.FindCheckpoint | backend/app/services/investigations.py:313-316 | The loop finds the first row of a node execution, or none |
| RunServices.InvestigationService.KeysAreRegistered | backend/app/services/investigations.py:604-615 | True exactly when every completed key names a registered node |
| RunServices.SizesTellDuplicates | backend/app/services/investigations.py:397-402 | A list and its set have different sizes exactly when an element occurs twice |
| RunServices.InvestigationService.Validate | backend/app/services/investigations.py:378-421 | Accepts a new checkpoint exactly when the run is running, the node registered, the iteration not below the run's nor above its limit, the keys unique and registered, no_progress <= iteration + 1, the references exist and the request budget suffices; otherwise reports the first check that fails |
| RunServices.InvestigationService.WriteCheckpoint | backend/app/services/investigations.py:292-475 | Appends one row with the next sequence and charges it, answers an equal repetition without charge, refuses everything else without change; agreement and coupling are kept |
| RunServices.InvestigationService.CancelWaits | backend/app/services/investigations.py:190-216 | The loop cancels every waiting wait of a run and its live task, in any order |
| RunServices.InvestigationService.Transition | backend/app/services/investigations.py:151-237 | Moves a run of the expected version along the allowed transitions and frees it; cancelling also cancels its waits and their tasks; agreement is kept, and the coupling exactly if no wait is forgotten |
| RunServices.AgentRuntimeWorker.WriteCheckpoint | backend/app/services/agent_runtime.py:286-371 | Checkpoint and wait are one transaction, made by the owner only; a refusal of either undoes both; agreement and coupling are kept |
| RunServices.AgentRuntimeWorker.Finish | backend/app/services/agent_runtime.py:450-468 | Moves the run only while the worker owns it, along an allowed transition, or finds it already there and unowned; agreement and coupling are kept |
| RunnerClient.Client.CompleteAction | runner/opspilot_runner/client.py:362-383 | The loop over up to three attempts ends with the report and the tables that delivering attempt by attempt gives, with any steps of others before each attempt, any loss of requests and responses and any server failure |
| RunnerClient.ReportIsRight | runner/opspilot_runner/client.py:362-383 | From any tables whose records agree, whatever the network loses and whatever the server does for others in between: at most one attempt is accepted; success is reported exactly when a response arrived and the completion is stored under its id; a stale report means that no attempt was accepted and it is not stored |
| RunnerClient.ReportOverRuns | runner/opspilot_runner/client.py:362-383 | The same over runs of the whole system, with the attempts at any three moments of a run |
| RunnerTokens.RunnerRecord.RotateIfNeeded | backend/app/services/runners.py:213-230 | Rotates exactly when due or when the previous token is presented; the presented token stays valid as the previous one for the grace period |
| RunnerTokens.RunnerRecord.Beat | backend/app/services/runners.py:96-150 | A heartbeat of an unknown or expired token changes nothing; an accepted one rotates, raises the lease counter and answers a repeated id with the same counter |
| RunnerTokens.HeartbeatMeans | backend/app/services/runners.py:96-150 | A heartbeat is answered if and only if the runner is enabled and presents a current or previous token that has not run out; a new one raises the counter by one and renews the lease for one period, a repeated one gets the counter it got before; tokens rotate exactly for the previous token or one old enough |
| RunnerTokens.RunnerClient.Beat | runner/opspilot_runner/client.py:127-147 | The runner stores a rotated token when the response arrives and keeps its own when it is lost |
| RunnerTokens.StaysInTouch | backend/app/services/runners.py:186-230 | With heartbeats at most d apart, d < grace and rotation + d <= ttl, one heartbeat with or without its response leaves the stored token the current or previous one of the server, in time for the next |
| RunnerTokens.AlwaysInTouch | backend/app/services/runners.py:186-230 | The same after any number of heartbeats with any pattern of lost responses |
| RunnerTokens.RotationKeepsRunnersIn | backend/app/services/runners.py:186-230 | No pattern of heartbeats at most d apart and of lost responses ever locks a runner out, if and only if d < grace and rotation + d <= ttl |
| RunnerTokens.LateHeartbeatLocksOut | backend/app/services/runners.py:96-150 | For any row of the server with an unexpired current token, a late heartbeat with another token and an unread response leaves the current token usable if and only if the server does not accept the late token at that moment or the runner is disabled |
| RunnerTokens.DelayedHeartbeatLocksOut | backend/app/services/runners.py:96-150 | From a registration, a heartbeat delayed past the rotation whose response the runner read makes the token it stored invalid |
| Policies.DecideLoop | backend/app/services/policies.py:281-326 | The loop equals the first-match decision over the list; the first rule that applies justifies it in its own effect, window and limit, and without one it is the default denial |
| Policies.DecisionIsTheHighestMatch | backend/app/services/policies.py:281-326 | The decision is the verdict of the enabled matching rule of highest precedence, and the default denial exactly when no enabled rule matches |
| Policies.DecisionMeans | backend/app/services/policies.py:281-326 | In the fields of the rules: of the enabled rules whose scopes contain the target, the one of highest priority, then the oldest, then of smallest id decides; it is allowed if and only if that rule's effect is allow, its window is absent or open at the moment and its limit is absent, uncounted or above the count; approval is asked for if and only if it is allowed and the rule asks; remaining number and reason follow; without such a rule it is the default denial |
| Policies.EvaluateIsOneDecision | backend/app/services/policies.py:176-233 | Deciding without counts, locking the match and deciding again on that rule with its count equals one first-match decision with every rule counted |
| Authorization.StepKeeps | backend/app/services/actions.py:38-151 | Every request keeps authorisations single-use and well founded: actions map injectively to decisions, approvals and keys; each decision was allowed; a needed approval is approved, of the same decision and with equal parameters; approved parameters differ from the requested ones on editable keys only |
| Authorization.Reachable | backend/app/services/approvals.py:96-174 | All of this in every reachable state |
| Authorization.CreationHappensOnce | backend/app/services/actions.py:38-151 | Once a decision has an action, creating from it again changes nothing; a replay answers that action, for the same key and the same request only |
| Authorization.OnlyCreationCounts | backend/app/storage/repositories.py:169-182 | No request but an accepted creation changes what a rule counts for an incident, cancellations included |
| Authorization.CreationStaysWithinLimit | backend/app/services/policies.py:248-279 | An accepted creation is under an enabled rule, raises that rule's count for that incident by exactly one and no other, and leaves it within the rule's current limit |
| Authorization.CountStaysWithinLimit | backend/app/services/policies.py:248-279 | In every run in which a rule keeps its limit, the actions counted for it and an incident never exceed it |
| Authorization.CreationIsAccepted | backend/app/services/actions.py:38-151 | An action is created if and only if its decision allowed it, is unused and still stands with the current count of its unchanged rule, its approval covers it, its parameters are valid and its key is new |
| Authorization.DecisionSettles | backend/app/services/approvals.py:96-174 | An accepted decision before the expiry leaves the approval approved if and only if approval was asked for and rejected if and only if not, and from the expiry on expired; never by the requester, approved only under a policy that still allows and asks, with the edits on editable keys and nothing else changed |
| Authorization.ActionsWereApproved | backend/app/services/approvals.py:159-164 | Over whole runs the approval behind an action was given by such a step and stayed as it was, with exactly the action's parameters |
| AuthorizationServices.AuthorizationBook.UpdateRule | backend/app/services/policies.py:98-159 | The rule is replaced, one version on and as old as before; no decision made under the replaced version authorises anything; single use is kept and no rule counts more or fewer actions; another version changes nothing |
| AuthorizationServices.AuthorizationBook.Evaluate | backend/app/services/policies.py:176-233 | The two passes of the loop store exactly one snapshot of the decision; single use is kept and nothing is counted |
| AuthorizationServices.AuthorizationBook.DecideApproval | backend/app/services/approvals.py:96-174 | Approved exactly if approval was asked for in time, rejected exactly if rejection was, expired exactly if too late; self-made, foreign-version and inadmissible decisions are refused; edits apply to editable keys only; single use is kept and nothing is counted |
| AuthorizationServices.AuthorizationBook.ValidateApproval | backend/app/services/actions.py:214-255 | No error exactly if the decision needs no approval and none is given, or the approval is the decision's own, approved, unexpired, unused and for exactly these parameters; otherwise the first reason in the order of the code |
| AuthorizationServices.AuthorizationBook.AuthorizeCreation | backend/app/services/policies.py:248-279 | The snapshot's own rule, decided anew with its current count |
| AuthorizationServices.AuthorizationBook.CreateAction | backend/app/services/actions.py:38-151 | Creates the action with its decision, approval, parameters and key and the decision's incident, answers an equal request again, or refuses without change; single use is kept |
| AuthorizationServices.AuthorizationBook.CancelAction | backend/app/services/actions.py:153-212 | Afterwards exactly the same decisions and approvals are used and every rule counts as before; single use is kept |
| Plans.ValidateDependencies | backend/app/services/plans.py:255-280 | Accepts exactly the plans whose dependencies are canonical numbers of earlier steps without repetition, and otherwise reports the first offence in the order of the code |
| Plans.UnmetDependencies | backend/app/services/plans.py:282-301 | Lists the dependencies that are not done, in order; the list is empty exactly when the step is ready |
| Plans.PlanRecord.TransitionStep | backend/app/services/plans.py:126-212 | Moves one step along the allowed transitions, one version on, starts it only when ready and counts that as an attempt, leaves all other steps alone, and ends the plan exactly with its last step; otherwise nothing changes |
| Plans.TransitionMeans | backend/app/services/plans.py:126-212 | A transition is accepted if and only if the plan is active, the version is the step's, the change of status is in the table, and a start has all its dependencies completed or skipped |
| Plans.AttemptsAreStarts | backend/app/services/plans.py:126-212 | Over any sequence of requests a step's attempts grow by exactly its accepted starts |
| Plans.PlanRecord.SelectNextStep | backend/app/services/agent_node_handler.py:112-141 | Chooses the first pending step whose dependencies are all done and starts it through the transition |
| Plans.FirstRunnable | backend/app/services/agent_node_handler.py:112-141 | The search returns the first runnable step |
| Plans.SelectedIsAccepted | backend/app/services/plans.py:282-301 | Every step the selector chooses passes the dependency check |
| Plans.PendingWaits | backend/app/services/agent_node_handler.py:112-141 | With nothing runnable, each pending step waits, through a chain of dependencies, for an earlier step that is running, failed or blocked |
| Plans.NoRunnableStep | backend/app/services/agent_node_handler.py:112-141 | Nothing is runnable only if no step is pending or some step is running, failed or blocked |
| Plans.TransitionKeepsOrder | backend/app/services/plans.py:126-212 | Every transition keeps it true that no step was started before its dependencies were done, and leaves the plan active exactly while some step is not done |
| Reliability.ConnectorCircuitBreaker.BeforeCall | runner/opspilot_runner/reliability.py:41-52 | Admits plainly exactly below the threshold, as a probe exactly when the recovery interval has passed and no probe is out, and otherwise tells the remaining time |
| Reliability.ConnectorCircuitBreaker.RecordSuccess | runner/opspilot_runner/reliability.py:54-57 | The state is again the function of the history with this success appended |
| Reliability.ConnectorCircuitBreaker.RecordFailure | runner/opspilot_runner/reliability.py:59-66 | The same for a failure: the count is the retryable failures since the last success, and the circuit is open since the last of them exactly when they reach the threshold |
| Reliability.ConnectorCircuitBreaker.AbandonCall | runner/opspilot_runner/reliability.py:68-69 | The same for an abandoned call: count and opening time stay |
| Reliability.ConnectorCircuitBreaker.Snapshot | runner/opspilot_runner/reliability.py:71-79 | State, count and remaining time are those of the history |
| Reliability.ConnectorCircuitBreaker.ProbeDecidesNothing | runner/opspilot_runner/reliability.py:59-66 | The probe disjunct of the failure record never changes whether the circuit opens |
| Reliability.FailuresAreCounted | runner/opspilot_runner/reliability.py:54-66 | The count is the number of retryable failures that no success followed, and the recovery interval runs from the last of these |
| Reliability.ExitCounts | runner/opspilot_runner/registry.py:153-199 | A returned result forgives all failures, a cancellation adds none, and an error adds one unless its code names a kind of error that a retry cannot help |
| Reliability.DelayIsBounded | runner/opspilot_runner/reliability.py:117-124 | Every delay lies within the jitter around the capped exponential, whatever the sample |
| Reliability.DelayIsBackoff | runner/opspilot_runner/reliability.py:117-124 | The delay after failure n is the base doubled n - 1 times and capped at the maximum, less the jitter at sample 0 and below, plus the jitter at sample 1 and above, and proportional in between; without jitter it is exactly that |
| Reliability.DelaysDouble | runner/opspilot_runner/reliability.py:117-124 | Below the cap each delay is twice the one before for equal samples |
| Reliability.SleepIsBounded | runner/opspilot_runner/reliability.py:117-124 | n sleeps take at least (1 - jitter) and at most (1 + jitter) times the sum of the capped doubled delays, and at most (1 + jitter) times the smaller of n times the maximum and base times 2^n - 1 |
| Reliability.ConnectorRegistry.Execute | runner/opspilot_runner/registry.py:153-199 | An admitted execution follows the script up to the first attempt that is not tried again, exits as that attempt calls for, records exactly one event for it, calls at most max_attempts times (once for a probe) and never after the deadline, never falls through, takes exactly the time of its calls and sleeps, and ends by its deadline when calls respect their timeout |
| Utf8.ScalarRoundTrip | runner/opspilot_runner/safety.py:21-25 | Decoding one encoded scalar value gives it back, whatever follows (section 3 of RFC 3629) |
| Utf8.RoundTrip | runner/opspilot_runner/safety.py:21-25 | Decoding an encoded text gives it back |
| Utf8.CutText | runner/opspilot_runner/safety.py:21-25 | Decoding the first bytes of an encoding, ignoring errors, yields exactly the code points that fit completely |
| Utf8.TruncationIsTheLongestPrefix | runner/opspilot_runner/safety.py:21-25 | For every text and byte limit the result is the longest prefix whose encoding fits, and the flag is true exactly when something was dropped |

## Left out

- Liveness: no claim that every dispatched execution is run or that every lock is released in the end. The oldest
  dispatching execution is always offered first, even when its lock was taken over.
- One clock reading per step: a dispatch of the code reads the clock several times.
- Atomicity: row locks, `skip_locked`, savepoints and integrity-error races are one atomic step each.
- Candidate rows: the answers of the queries (`claim_for_runner`, `queued_candidates`, `claim_runtime_candidate`,
  `get_by_key`, expired rows) are step arguments, constrained to rows the query could return; the oldest-first order
  is not part of the model.
- Rollback capability: `validate_rollback_capability` refuses every capability today
  (backend/app/services/actions.py:285-301); its answer is a field of the action, so that compensations are reachable.
- Runner authentication and capability matching: they precede the steps, which take an authenticated runner.
- Fingerprints, hashes and tokens: fingerprints are compared as the values they are made of, random tokens are fresh.
- Idempotency keys of tasks and runs, evidence rows, plan evidence ids, events and the outbox: recorded beside the
  steps. Exceptions are the keys of actions and compensations and the lock acquisition events.
- String parsing: node keys and plan dependencies are parsed values; a dependency is malformed or a number that is
  canonical or not.
- Handlers: a node handler is a function of the node, the iteration, the requested action and the completed keys; the
  provider, the connectors, HTTP and redaction are not modelled.
- LangGraph internals: `Walk` does not stop at the configured recursion limit, and a visit of a node counts as one step.
- ExecutionLength.RecursionLimitSuffices: about executions from the start; a restart replays nodes before it goes on.
- RunLives.ProperLivesKeepTheOrder: for handlers that never answer `continue` at the last node; the contract itself,
  `RunLives.ContractHoldsAcrossCrashes`, holds for every handler.
- ProgressBudget.StopsExactly: for handlers whose answers keep to their type (backend/app/services/agent_runtime.py:25);
  `ProgressBudget.BudgetIsWhatWasTold` holds for every handler.
- ProgressBudget.IdlePassesAreLimited: for lives without resolved waits, because a resolved wait erases the requested
  stop and lets the run go on.
- RunLives.CrashesLeaveThePrefix: for one handler without resolved waits and without stuck checkpoints;
  `AgentRuntime.ResumeIsContinuation` shows that the last condition is needed.
- DispatcherService.ActionDispatcherService.Create: the authorisation checks before it are those of
  `AuthorizationServices.AuthorizationBook.CreateAction`, in a state machine of its own.
- Exclusion.ReachableExclusion: for runs without takeovers by the internal acquisition, as `ExclusionIsKeptExactly`
  says it must be.
- RunHistory.ReachableCoupling: for runs without the two steps `CouplingIsKeptExactly` names.
- Authorization.CountStaysWithinLimit: while the rule keeps its limit; a limit lowered later can be below the count.
- Versions.StaleVersionIsRefused: answers that repeat an earlier request are not acceptances.
- Policies: a maintenance window is a weekday and a minute of the day; time zones are not part of the model.
- Reliability.ConnectorCircuitBreaker.BeforeCall: overlapping calls may admit a second probe after a late result of an
  older call cleared the flag, and no claim is made about them.
- Reliability: times are real numbers, so floating-point rounding is not part of the model.
- Utf8: limits are natural numbers; a negative limit, which slices from the end in the code, is not modelled.
- Task fencing tokens: a task token is the runner's lease token and can repeat between attempts; no uniqueness claimed.
- HTTP routing, sessions, dashboards, alerts, the catalogue, Fault Lab, backup, the frontend and migrations are left
  out: they hold no protocol or only easy properties.
