/** The executor's checkpoints against the checks of `write_checkpoint`: the two models meet. */
module ExecutorContract {
  import opened Common
  import opened InvestigationGraph
  import Records
  import Investigations
  import AgentRuntime
  import RunLives

  /** What the stored content repeats of a checkpoint. */
  predicate Stores(c: Records.Content, ck: AgentRuntime.Checkpoint) {
    && c.node == ck.node && c.iteration == ck.iteration && c.completed == ck.completed
    && c.noProgress == ck.noProgress && c.progressed == ck.progressed && c.next == ck.next
  }

  /** The run as it is when checkpoint j of a log is written. */
  predicate RunsUnder(run: Records.Run, cfg: AgentRuntime.Config, log: seq<AgentRuntime.Checkpoint>, j: nat)
    requires j < |log|
  {
    && run.status.RunRunning? && run.graph == cfg.graph && run.maxIterations == cfg.maxIterations
    && run.iteration == if j == 0 then 0 else log[j-1].iteration
  }

  lemma DistinctHasNoDuplicate(keys: seq<Key>)
    requires AgentRuntime.Distinct(keys)
    ensures !Investigations.HasDuplicate(keys)
  {
  }

  /** The answer to a checkpoint that keeps the executor's contract. */
  function Answer(cfg: AgentRuntime.Config, run: Records.Run, c: Records.Content, referencesExist: bool)
    : Option<Records.Code>
  {
    if c.iteration > cfg.maxIterations then Some(Records.InvalidIteration)
    else if !referencesExist then Some(Records.ReferenceNotFound)
    else if run.requests + c.requests > run.requestLimit then Some(Records.RequestBudgetExhausted)
    else None
  }

  lemma ContractMeetsChecks(cfg: AgentRuntime.Config, run: Records.Run, c: Records.Content, referencesExist: bool)
    requires run.status.RunRunning? && run.graph == cfg.graph && run.maxIterations == cfg.maxIterations
    requires run.iteration <= c.iteration && c.noProgress <= c.iteration + 1
    requires Registered(cfg.graph, c.node) && AgentRuntime.Distinct(c.completed)
    requires forall k <- c.completed :: Registered(cfg.graph, k.node)
    ensures Investigations.CheckpointError(run, c, referencesExist) == Answer(cfg, run, c, referencesExist)
  {
    hide Investigations.HasDuplicate, AgentRuntime.Distinct;
    DistinctHasNoDuplicate(c.completed);
  }

  /** Whatever its handlers answer and wherever it crashes, the service never refuses a checkpoint of the executor
      for its node, its keys or its no-progress count, and refuses it for its iteration if and only if that is beyond
      the run's limit; otherwise only a missing reference or the request budget can stop it. */
  lemma CheckpointsAreAccepted(cfg: AgentRuntime.Config, epochs: seq<RunLives.Epoch>, j: nat, run: Records.Run,
                               c: Records.Content, referencesExist: bool)
    requires j < |RunLives.Live(cfg, epochs)|
    requires Stores(c, RunLives.Live(cfg, epochs)[j]) && RunsUnder(run, cfg, RunLives.Live(cfg, epochs), j)
    ensures Investigations.CheckpointError(run, c, referencesExist)
            == Answer(cfg, run, c, referencesExist)
  {
    hide RunLives.Live, AgentRuntime.Distinct, Investigations.CheckpointError, Registered;
    RunLives.ContractHoldsAcrossCrashes(cfg, epochs);
    assert RunLives.Follows(RunLives.Live(cfg, epochs), j);
    assert Key(c.node, c.iteration) in c.completed;
    ContractMeetsChecks(cfg, run, c, referencesExist);
  }

  /** And it is refused for that: every run has a life in which all checkpoints are accepted but the last, which
      `select_next_step` writes after maxIterations + 1 crashes that each followed `continue` of the last node. */
  lemma EndlessRunsAreRefused(cfg: AgentRuntime.Config, run: Records.Run, c: Records.Content, referencesExist: bool)
    requires cfg.noProgressLimit > 0
    ensures var before := RunLives.Live(cfg, RunLives.Endless(cfg.maxIterations + 1));
            var log := RunLives.Live(cfg, RunLives.Endless(cfg.maxIterations + 1)
                                          + [RunLives.Epoch(RunLives.ENDLESS, false, 1)]);
            && (forall ck <- before :: ck.iteration <= cfg.maxIterations)
            && |log| == |before| + 1 && before <= log
            && (Stores(c, log[|before|]) && RunsUnder(run, cfg, log, |before|) ==>
                  Investigations.CheckpointError(run, c, referencesExist) == Some(Records.InvalidIteration))
  {
    hide RunLives.Live, RunLives.Endless, Investigations.CheckpointError;
    RunLives.LimitIsPassed(cfg);
    var epochs := RunLives.Endless(cfg.maxIterations + 1) + [RunLives.Epoch(RunLives.ENDLESS, false, 1)];
    var j := |RunLives.Live(cfg, RunLives.Endless(cfg.maxIterations + 1))|;
    if Stores(c, RunLives.Live(cfg, epochs)[j]) && RunsUnder(run, cfg, RunLives.Live(cfg, epochs), j) {
      CheckpointsAreAccepted(cfg, epochs, j, run, c, referencesExist);
    }
  }
}
