/** Checkpoint logs, claims and waits of investigation runs over whole runs of the system. */
module RunHistory {
  import opened Common
  import opened InvestigationGraph
  import opened Records
  import opened ActionInvariants
  import opened RunnerTasks
  import opened InvestigationHitl
  import opened Investigations
  import opened RunInvariants
  import opened StepRelations
  import opened TaskCoupling
  import opened TaskLife
  import opened System
  import ActionSteps
  import Compensations
  import CompensationSteps
  import TaskSteps
  import RunSteps
  import RunPreservation

  // ----- The checkpoint log ------------------------------------------------------------------------------

  lemma {:induction false} RunGrowsAlong(cfg: Settings, steps: seq<Step>, i: nat, j: nat, r: RunId)
    requires i <= j <= |steps| && r in At(cfg, steps, i).runs
    ensures r in At(cfg, steps, j).runs
    ensures var run, run' := At(cfg, steps, i).runs[r], At(cfg, steps, j).runs[r];
            && run.log <= run'.log && run'.graph == run.graph && run'.requestLimit == run.requestLimit
            && run'.maxIterations == run.maxIterations
            && RunVersionGrows(run, run')
            && (TerminalRun(run.status) ==> run'.status == run.status)
    decreases j
  {
    hide Inv, Next, State, Leases, Claims, RunsOk, TasksGrow, LogOk, OwnerOk;
    if i < j {
      RunGrowsAlong(cfg, steps, i, j - 1, r);
      Reachable(cfg, steps[..j-1]);
      AtNext(cfg, steps, j - 1);
      var db, db' := At(cfg, steps, j - 1), At(cfg, steps, j);
      StepLives(cfg, db, steps[j-1]);
      assert RunGrows(db.runs[r], db'.runs[r], ClaimOf(Claims(cfg, db, steps[j-1]), r));
    }
  }

  lemma {:induction false} SumOfParts(log: seq<CheckpointRow>, more: seq<CheckpointRow>, field: Content -> nat)
    ensures Sum(log + more, field) == Sum(log, field) + Sum(more, field)
  {
    if more == [] {
      assert log + more == log;
    } else {
      SumOfParts(log, more[..|more|-1], field);
      assert (log + more)[..|log + more|-1] == log + more[..|more|-1];
    }
  }

  /** Checkpoint log conservation: at every moment the log is numbered 1 to n without a repeated execution id,
      its iterations never fall, and the request and token totals of the run are the sums over it, within the
      request limit. */
  lemma LogIsConserved(cfg: Settings, steps: seq<Step>, r: RunId)
    requires r in State(cfg, steps).runs
    ensures var run := State(cfg, steps).runs[r];
            && |run.log| == run.sequence
            && (forall k {:trigger run.log[k]} :: 0 <= k < |run.log| ==> run.log[k].sequence == k + 1)
            && (forall j, k :: 0 <= j < k < |run.log| ==>
                  run.log[j].id != run.log[k].id && run.log[j].content.iteration <= run.log[k].content.iteration)
            && run.requests == Sum(run.log, REQUESTS) <= run.requestLimit
            && run.inputTokens == Sum(run.log, INPUT_TOKENS) && run.outputTokens == Sum(run.log, OUTPUT_TOKENS)
  {
    hide Inv, State;
    Reachable(cfg, steps);
    assert LogOk(State(cfg, steps).runs[r]);
  }

  /** Between two moments a run is charged exactly for the checkpoints appended in between, which leave the
      earlier ones untouched; replays therefore charge nothing. */
  lemma ChargesAreTheAppendedCheckpoints(cfg: Settings, steps: seq<Step>, i: nat, j: nat, r: RunId)
    requires i <= j <= |steps| && r in At(cfg, steps, i).runs
    ensures r in At(cfg, steps, j).runs
    ensures var run, run' := At(cfg, steps, i).runs[r], At(cfg, steps, j).runs[r];
            && run.log <= run'.log
            && run'.requests == run.requests + Sum(run'.log[|run.log|..], REQUESTS)
            && run'.inputTokens == run.inputTokens + Sum(run'.log[|run.log|..], INPUT_TOKENS)
            && run'.outputTokens == run.outputTokens + Sum(run'.log[|run.log|..], OUTPUT_TOKENS)
  {
    hide Inv, State, Sum;
    RunGrowsAlong(cfg, steps, i, j, r);
    LogIsConserved(cfg, steps[..i], r);
    LogIsConserved(cfg, steps[..j], r);
    var run, run' := At(cfg, steps, i).runs[r], At(cfg, steps, j).runs[r];
    assert run'.log == run.log + run'.log[|run.log|..];
    SumOfParts(run.log, run'.log[|run.log|..], REQUESTS);
    SumOfParts(run.log, run'.log[|run.log|..], INPUT_TOKENS);
    SumOfParts(run.log, run'.log[|run.log|..], OUTPUT_TOKENS);
  }

  // ----- Who writes ----------------------------------------------------------------------------------------

  /** The worker of the latest accepted claim of a run. */
  function LatestClaim(cfg: Settings, steps: seq<Step>, r: RunId): Option<Owner> {
    if steps == [] then None else
      var n := |steps| - 1;
      var claimed := ClaimOf(Claims(cfg, State(cfg, steps[..n]), steps[n]), r);
      if claimed.Some? then claimed else LatestClaim(cfg, steps[..n], r)
  }

  lemma {:induction false} ClaimantIsTheLatest(cfg: Settings, steps: seq<Step>, r: RunId)
    ensures LatestClaim(cfg, steps, r) ==
            if r in State(cfg, steps).runs then State(cfg, steps).runs[r].claimant else None
  {
    hide Inv, Next, Claims, Leases, RunsOk, TasksGrow, LogOk, OwnerOk;
    if steps != [] {
      var n := |steps| - 1;
      var db := State(cfg, steps[..n]);
      ClaimantIsTheLatest(cfg, steps[..n], r);
      Reachable(cfg, steps[..n]);
      StepLives(cfg, db, steps[n]);
      if r in db.runs {
        assert RunGrows(db.runs[r], State(cfg, steps).runs[r], ClaimOf(Claims(cfg, db, steps[n]), r));
      }
    }
  }

  /** A checkpoint the executor writes comes from the worker of the latest claim of the run, and carries its
      name. */
  lemma CheckpointsComeFromTheLatestClaim(cfg: Settings, steps: seq<Step>, k: nat)
    requires k < |steps| && steps[k].OnRun? && steps[k].run.ExecutorWrite?
    requires !Apply(cfg, At(cfg, steps, k), steps[k]).Refused?
    ensures var w := steps[k].run;
            && LatestClaim(cfg, steps[..k], w.r) == Some(w.owner)
            && w.r in At(cfg, steps, k).runs && w.r in At(cfg, steps, k + 1).runs
            && var before, after := At(cfg, steps, k).runs[w.r].log, At(cfg, steps, k + 1).runs[w.r].log;
               after == before || (|after| == |before| + 1 && after[|before|].id == w.id
                                   && after[|before|].writer == Some(w.owner) && after[|before|].content == w.content)
  {
    hide Inv, State, LogOk, LatestClaim;
    var w, db := steps[k].run, At(cfg, steps, k);
    Reachable(cfg, steps[..k]);
    ClaimantIsTheLatest(cfg, steps[..k], w.r);
    assert OwnerOk(db.runs[w.r]);
    AtNext(cfg, steps, k);
    WrittenRow(db, w.r, w.owner, w.id, w.content, w.referencesExist, w.interrupt);
  }

  lemma WrittenRow(db: Db, r: RunId, owner: Owner, id: ExecutionId, c: Content, references: bool, i: Interrupt)
    requires r in db.runs && !ExecutorCheckpoint(db, r, owner, id, c, references, i).Refused?
    ensures var db' := ExecutorCheckpoint(db, r, owner, id, c, references, i).db;
            && r in db'.runs
            && (db'.runs[r].log == db.runs[r].log
                || db'.runs[r].log == db.runs[r].log + [CheckpointRow(id, db.runs[r].sequence + 1, c, Some(owner))])
  {
    hide StartWait, StartObservation, WriteCheckpoint;
    var written := WriteCheckpoint(db, r, id, db.runs[r].version, c, references, Some(owner));
    WrittenLog(db, r, id, db.runs[r].version, c, references, Some(owner));
    if i.Hitl? { WaitLog(written.db, r, id, i.subject, written.db.runs[r].version, i.pending); }
    if i.Observation? { ObservationLog(written.db, r, id, i); }
  }

  lemma WrittenLog(db: Db, r: RunId, id: ExecutionId, version: nat, c: Content, references: bool, writer: Option<Owner>)
    requires r in db.runs && !WriteCheckpoint(db, r, id, version, c, references, writer).Refused?
    ensures var db' := WriteCheckpoint(db, r, id, version, c, references, writer).db;
            && r in db'.runs
            && (db'.runs[r].log == db.runs[r].log
                || db'.runs[r].log == db.runs[r].log + [CheckpointRow(id, db.runs[r].sequence + 1, c, writer)])
  {
  }

  lemma WaitLog(db: Db, r: RunId, id: ExecutionId, subject: Subject, version: nat, pending: bool)
    requires r in db.runs
    ensures var db' := After(db, StartWait(db, r, id, subject, version, pending));
            r in db'.runs && db'.runs[r].log == db.runs[r].log
  {
  }

  lemma ObservationLog(db: Db, r: RunId, id: ExecutionId, i: Interrupt)
    requires r in db.runs && i.Observation?
    ensures var db' := After(db, StartObservation(db, r, id, i));
            r in db'.runs && db'.runs[r].log == db.runs[r].log
  {
  }

  // ----- Waits -------------------------------------------------------------------------------------------------

  /** The steps that break the coupling: the loss of a runner that strands a waiting run, and a status change
      other than cancellation of a run that waits. */
  ghost predicate Uncouples(db: Db, s: Step) {
    (s.OnTask? && TaskSteps.StrandsRun(db, s.task)) || (s.OnRun? && RunSteps.ForgetsWait(db, s.run))
  }

  lemma ActionTablesAreMild(db: Db, db': Db)
    requires ActionTablesOnly(db, db')
    ensures MildTasks(db, db')
  {
  }

  lemma DecisionKeepsCoupling(cfg: Settings, db: Db, s: CompensationSteps.CompensationStep)
    requires Inv(db) && Coupled(db) && RunsOk(db) && s.Decide?
    ensures Coupled(After(db, CompensationSteps.Apply(cfg, db, s)))
  {
    hide Inv, Coupled, RunsOk, CompensationSteps.Kept, CompensationSteps.ActionsAdvance, Compensations.Decide,
      ResolveSubject, CompensationSteps.DecidedRow, MildTasks;
    CompensationSteps.DecideKeeps(db, s.a, s.approve, s.version, s.decider, s.allowed, s.run, s.now);
    if !CompensationSteps.Apply(cfg, db, s).Refused? {
      var decided := CompensationSteps.DecidedRow(db, s.a, s.approve, s.now);
      CompensationSteps.KeptTables(db, decided);
      ActionTablesAreMild(db, decided);
      MildTasksKeep(db, decided);
      RunPreservation.ResolveSubjectKeeps(decided, Subject(CompensationSubject, s.a), s.run);
    }
  }

  /** From any coupled state, a step keeps the coupling of runs, waits and tasks if and only if it is not one
      of those. */
  lemma CouplingIsKeptExactly(cfg: Settings, db: Db, s: Step)
    requires Inv(db) && Coupled(db) && RunsOk(db)
    ensures Coupled(Next(cfg, db, s)) <==> !Uncouples(db, s)
  {
    hide Inv, Coupled, RunsOk, Progresses, CompensationSteps.ActionsAdvance, ActionTablesOnly, MildTasks,
      TaskSteps.StrandsRun, RunSteps.ForgetsWait,
      ActionSteps.Apply, CompensationSteps.Apply, TaskSteps.Apply, RunSteps.Apply;
    var db' := Next(cfg, db, s);
    match s
    case OnAction(action) =>
      ActionSteps.StepAdvances(cfg, db, action);
      ProgressFacts(db, db');
      ActionTablesAreMild(db, db');
      MildTasksKeep(db, db');
    case OnCompensation(comp) =>
      CompensationSteps.StepAdvances(cfg, db, comp);
      if comp.Decide? {
        DecisionKeepsCoupling(cfg, db, comp);
      } else {
        ActionTablesAreMild(db, db');
        MildTasksKeep(db, db');
      }
    case OnTask(task) => TaskSteps.StepKeepsCoupling(cfg, db, task);
    case OnRun(run) => RunSteps.StepKeepsCoupling(cfg, db, run);
  }

  lemma {:induction false} ReachableCoupling(cfg: Settings, steps: seq<Step>)
    requires forall k :: 0 <= k < |steps| ==> !Uncouples(At(cfg, steps, k), steps[k])
    ensures Coupled(State(cfg, steps))
  {
    hide Inv, Coupled, RunsOk, Uncouples, Next;
    EmptyIsRight();
    if steps != [] {
      var n := |steps| - 1;
      forall k | 0 <= k < n ensures !Uncouples(At(cfg, steps[..n], k), steps[..n][k]) {
        assert steps[..n][..k] == steps[..k] && !Uncouples(At(cfg, steps, k), steps[k]);
      }
      ReachableCoupling(cfg, steps[..n]);
      Reachable(cfg, steps[..n]);
      assert !Uncouples(At(cfg, steps, n), steps[n]);
      CouplingIsKeptExactly(cfg, State(cfg, steps[..n]), steps[n]);
    }
  }

  /** Wait and run stay coupled: while a run waits, it waits for one thing only, is paused without an owner,
      and the task of an observation it waits for is queued or leased. */
  lemma WaitingRunIsParked(cfg: Settings, steps: seq<Step>, v: WaitKey, w: WaitKey)
    requires forall k :: 0 <= k < |steps| ==> !Uncouples(At(cfg, steps, k), steps[k])
    requires WaitsFor(State(cfg, steps), v) && WaitsFor(State(cfg, steps), w) && v.run == w.run
    ensures v == w
    ensures var db := State(cfg, steps);
            && w.run in db.runs && db.runs[w.run].status.RunPaused? && db.runs[w.run].owner.None?
            && (w.ObservationWait? ==> var task := db.waits[w].task;
                  task.Some? && task.value in db.tasks && Live(db.tasks[task.value]))
  {
    hide State, Uncouples;
    ReachableCoupling(cfg, steps);
    assert WaitOk(State(cfg, steps), w);
  }
}
