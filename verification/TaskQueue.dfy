/** Bounds of the task queue over whole runs. */
module TaskQueue {
  import opened Common
  import opened Records
  import opened ActionInvariants
  import opened RunnerTasks
  import opened TaskLife
  import opened System
  import RunInvariants
  import TaskSteps
  import ActionVerifications
  import TaskCoupling
  import TaskPreservation

  /** How often a task has been leased in a run. */
  function LeaseCount(cfg: Settings, steps: seq<Step>, t: TaskId): nat {
    if steps == [] then 0 else
      var n := |steps| - 1;
      LeaseCount(cfg, steps[..n], t) + (if Leases(cfg, State(cfg, steps[..n]), steps[n]) == Some(t) then 1 else 0)
  }

  /** A task's attempt counter counts its leases. */
  lemma {:induction false} AttemptsAreLeases(cfg: Settings, steps: seq<Step>, t: TaskId)
    ensures LeaseCount(cfg, steps, t) ==
            if t in State(cfg, steps).tasks then State(cfg, steps).tasks[t].attempt else 0
  {
    hide Inv, Next, Leases, RunInvariants.RunsOk, RunsGrow;
    if steps != [] {
      var n := |steps| - 1;
      var db := State(cfg, steps[..n]);
      AttemptsAreLeases(cfg, steps[..n], t);
      Reachable(cfg, steps[..n]);
      StepLives(cfg, db, steps[n]);
      var leased := Leases(cfg, db, steps[n]);
      if t in db.tasks {
        assert TaskGrows(db.tasks[t], State(cfg, steps).tasks[t], leased == Some(t));
      } else if leased == Some(t) {
        LeasedExists(cfg, db, steps[n]);
      }
    }
  }

  lemma LeasedExists(cfg: Settings, db: Db, s: Step)
    requires Leases(cfg, db, s).Some?
    ensures Leases(cfg, db, s).value in Next(cfg, db, s).tasks
  {
    hide EndAll, HasLeased, ActionVerifications.MarkRunning;
    var o := Apply(cfg, db, s);
    var mid := EndAll(db, Lapse(s.task.now), s.task.expired);
    var t := s.task.candidate.value;
    TaskCoupling.MarkTables(SetTask(mid, t,
      Leased(cfg, mid.tasks[t], s.task.runner, s.task.runnerToken, s.task.now)), t);
  }

  /** A task is leased at most `maxAttempts` times in any run; a queued task has attempts left, a leased one
      has used at least one. */
  lemma LeasesAreBounded(cfg: Settings, steps: seq<Step>, t: TaskId)
    requires t in State(cfg, steps).tasks
    ensures var task := State(cfg, steps).tasks[t];
            && LeaseCount(cfg, steps, t) <= task.maxAttempts
            && (task.status.TaskQueued? ==> LeaseCount(cfg, steps, t) < task.maxAttempts)
            && (task.status.TaskLeased? ==> 1 <= LeaseCount(cfg, steps, t))
  {
    hide Inv, State, LeaseCount, RunInvariants.RunsOk;
    AttemptsAreLeases(cfg, steps, t);
    Reachable(cfg, steps);
    TaskPreservation.TaskFacts(State(cfg, steps), t);
  }

  lemma {:induction false} TaskGrowsAlong(cfg: Settings, steps: seq<Step>, i: nat, j: nat, t: TaskId)
    requires i <= j <= |steps| && t in At(cfg, steps, i).tasks && !Live(At(cfg, steps, i).tasks[t])
    ensures t in At(cfg, steps, j).tasks
    ensures var task, task' := At(cfg, steps, i).tasks[t], At(cfg, steps, j).tasks[t];
            task'.status == task.status && task'.attempt == task.attempt && task'.completion == task.completion
    decreases j
  {
    hide Inv, Next, State, Leases, RunInvariants.RunsOk, RunsGrow;
    if i < j {
      TaskGrowsAlong(cfg, steps, i, j - 1, t);
      Reachable(cfg, steps[..j-1]);
      AtNext(cfg, steps, j - 1);
      var db, db' := At(cfg, steps, j - 1), At(cfg, steps, j);
      StepLives(cfg, db, steps[j-1]);
      assert TaskGrows(db.tasks[t], db'.tasks[t], Leases(cfg, db, steps[j-1]) == Some(t));
    }
  }

  /** Succeeded, failed and cancelled are final: a finished task keeps its status, its completion and its
      number of leases, verification retries included. */
  lemma FinishedTaskStays(cfg: Settings, steps: seq<Step>, i: nat, j: nat, t: TaskId)
    requires i <= j <= |steps| && t in At(cfg, steps, i).tasks && !Live(At(cfg, steps, i).tasks[t])
    ensures t in At(cfg, steps, j).tasks && At(cfg, steps, j).tasks[t].status == At(cfg, steps, i).tasks[t].status
    ensures At(cfg, steps, j).tasks[t].completion == At(cfg, steps, i).tasks[t].completion
    ensures LeaseCount(cfg, steps[..j], t) == LeaseCount(cfg, steps[..i], t)
  {
    hide State, LeaseCount;
    TaskGrowsAlong(cfg, steps, i, j, t);
    AttemptsAreLeases(cfg, steps[..i], t);
    AttemptsAreLeases(cfg, steps[..j], t);
  }

  // ----- Who may report --------------------------------------------------------------------------------------

  /** Step k leased the task, and no step since has. */
  predicate LatestLease(cfg: Settings, steps: seq<Step>, k: nat, t: TaskId) {
    && k < |steps| && Leases(cfg, At(cfg, steps, k), steps[k]) == Some(t)
    && forall j :: k < j < |steps| ==> Leases(cfg, At(cfg, steps, j), steps[j]) != Some(t)
  }

  lemma LeaseNamesHolder(cfg: Settings, db: Db, s: Step)
    requires Leases(cfg, db, s).Some?
    ensures s.OnTask? && s.task.Claim?
    ensures var task := Next(cfg, db, s).tasks[Leases(cfg, db, s).value];
            Leases(cfg, db, s).value in Next(cfg, db, s).tasks
            && task.runner == Some(s.task.runner) && task.token == Some(s.task.runnerToken)
  {
    hide EndAll, HasLeased, ActionVerifications.MarkRunning;
    var mid := EndAll(db, Lapse(s.task.now), s.task.expired);
    var t := s.task.candidate.value;
    TaskCoupling.MarkTables(SetTask(mid, t,
      Leased(cfg, mid.tasks[t], s.task.runner, s.task.runnerToken, s.task.now)), t);
  }

  /** A leased task is held by the runner of its latest lease, under the token of that claim. */
  lemma {:induction false} HolderIsTheLatest(cfg: Settings, steps: seq<Step>, t: TaskId) returns (k: nat)
    requires t in State(cfg, steps).tasks && State(cfg, steps).tasks[t].status.TaskLeased?
    ensures LatestLease(cfg, steps, k, t) && steps[k].OnTask? && steps[k].task.Claim?
    ensures State(cfg, steps).tasks[t].runner == Some(steps[k].task.runner)
    ensures State(cfg, steps).tasks[t].token == Some(steps[k].task.runnerToken)
  {
    hide Inv, Next, Leases, RunInvariants.RunsOk, RunsGrow;
    assert steps != [];
    var n := |steps| - 1;
    var db := State(cfg, steps[..n]);
    Reachable(cfg, steps[..n]);
    StepLives(cfg, db, steps[n]);
    AttemptsAreLeases(cfg, steps[..n], t);
    LeasesAreBounded(cfg, steps, t);
    if Leases(cfg, db, steps[n]) == Some(t) {
      k := n;
      LeaseNamesHolder(cfg, db, steps[n]);
    } else {
      assert TaskGrows(db.tasks[t], State(cfg, steps).tasks[t], false);
      k := HolderIsTheLatest(cfg, steps[..n], t);
      assert forall j :: 0 <= j <= n ==> steps[..n][..j] == steps[..j];
    }
  }

  /** Over whole runs, a renewal or a completion of a task is accepted only from the runner to which the latest lease
      gave the task, under the token of that claim, and before the lease ends. */
  lemma ReportsComeFromTheHolder(cfg: Settings, steps: seq<Step>, s: TaskSteps.TaskStep) returns (k: nat)
    requires (s.Complete? || s.Renew?) && Apply(cfg, State(cfg, steps), OnTask(s)).Accepted?
    ensures LatestLease(cfg, steps, k, s.t) && steps[k].OnTask? && steps[k].task.Claim?
    ensures steps[k].task.runner == s.runner && steps[k].task.runnerToken == s.token
    ensures var tasks := State(cfg, steps).tasks;
            s.t in tasks && tasks[s.t].lease.Some? && s.now < tasks[s.t].lease.value
  {
    hide State, Leases, ActionVerifications.FinalizeTask, ResolveTask;
    k := HolderIsTheLatest(cfg, steps, s.t);
  }
}
