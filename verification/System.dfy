/** The control plane as one state machine: every request is one atomic step on the shared tables, in any
    order, with any arguments and any clock reading. */
module System {
  import opened Common
  import opened Records
  import opened ActionInvariants
  import opened ActionPreservation
  import opened StepRelations
  import opened CaseSteps
  import opened TaskPreservation
  import opened TaskCoupling
  import opened TaskLife
  import opened RunInvariants
  import ActionSteps
  import Compensations
  import InvestigationHitl
  import CompensationSteps
  import TaskSteps
  import RunSteps

  datatype Step =
    | OnAction(action: ActionSteps.ActionStep)
    | OnCompensation(comp: CompensationSteps.CompensationStep)
    | OnTask(task: TaskSteps.TaskStep)
    | OnRun(run: RunSteps.RunStep)

  function Apply(cfg: Settings, db: Db, s: Step): Outcome {
    match s
    case OnAction(action) => ActionSteps.Apply(cfg, db, action)
    case OnCompensation(comp) => CompensationSteps.Apply(cfg, db, comp)
    case OnTask(task) => TaskSteps.Apply(cfg, db, task)
    case OnRun(run) => RunSteps.Apply(cfg, db, run)
  }

  function Next(cfg: Settings, db: Db, s: Step): Db {
    After(db, Apply(cfg, db, s))
  }

  /** The tables after a run of the system. */
  function State(cfg: Settings, steps: seq<Step>): Db {
    if steps == [] then EMPTY else Next(cfg, State(cfg, steps[..|steps|-1]), steps[|steps|-1])
  }

  /** The tables before step k. */
  function At(cfg: Settings, steps: seq<Step>, k: nat): Db
    requires k <= |steps|
  {
    State(cfg, steps[..k])
  }

  lemma AtNext(cfg: Settings, steps: seq<Step>, k: nat)
    requires k < |steps|
    ensures At(cfg, steps, k + 1) == Next(cfg, At(cfg, steps, k), steps[k])
  {
    assert steps[..k+1][..k] == steps[..k];
  }

  function Leases(cfg: Settings, db: Db, s: Step): Option<TaskId> {
    if s.OnTask? then TaskSteps.Leases(cfg, db, s.task) else None
  }

  function Claims(cfg: Settings, db: Db, s: Step): Option<Claimed> {
    if s.OnRun? then RunSteps.Claims(cfg, db, s.run) else None
  }

  // ----- What one step keeps ------------------------------------------------------------------------

  lemma KeepsGrow(db: Db, db': Db)
    requires Keeps(db, db')
    ensures Inv(db') && Grows(db, db') && (Exclusive(db) ==> Exclusive(db'))
  {
    hide CaseGrows, Exclusive, Inv, CaseOf;
  }

  lemma ProgressFacts(db: Db, db': Db)
    requires Progresses(db, db')
    ensures Inv(db') && Grows(db, db') && ActionTablesOnly(db, db')
  {
  }

  lemma AdvanceFacts(db: Db, db': Db)
    requires CompensationSteps.ActionsAdvance(db, db')
    ensures Inv(db') && Grows(db, db') && (Exclusive(db) ==> Exclusive(db'))
  {
  }

  /** Every step keeps the records of every action in agreement and undoes nothing. */
  lemma StepKeeps(cfg: Settings, db: Db, s: Step)
    requires Inv(db)
    ensures Inv(Next(cfg, db, s)) && Grows(db, Next(cfg, db, s))
  {
    hide Inv, Grows, Progresses, Keeps, CompensationSteps.ActionsAdvance, ActionTablesOnly,
      ActionSteps.Apply, CompensationSteps.Apply, TaskSteps.Apply, RunSteps.Apply;
    match s
    case OnAction(action) => ActionSteps.StepAdvances(cfg, db, action); ProgressFacts(db, Next(cfg, db, s));
    case OnCompensation(comp) => CompensationSteps.StepAdvances(cfg, db, comp); AdvanceFacts(db, Next(cfg, db, s));
    case OnTask(task) => TaskSteps.StepKeeps(cfg, db, task); KeepsGrow(db, Next(cfg, db, s));
    case OnRun(run) => RunSteps.StepKeeps(cfg, db, run); KeepsGrow(db, Next(cfg, db, s));
  }

  lemma DecisionLives(db: Db, s: CompensationSteps.CompensationStep, cfg: Settings)
    requires Inv(db) && s.Decide?
    ensures LivesOn(db, After(db, CompensationSteps.Apply(cfg, db, s)))
  {
    hide Inv, LivesOn, CompensationSteps.Kept, CompensationSteps.ActionsAdvance, Compensations.Decide,
      InvestigationHitl.ResolveSubject, CompensationSteps.DecidedRow;
    NothingDies(db);
    CompensationSteps.DecideKeeps(db, s.a, s.approve, s.version, s.decider, s.allowed, s.run, s.now);
    var o := CompensationSteps.Apply(cfg, db, s);
    if !o.Refused? {
      var decided := CompensationSteps.DecidedRow(db, s.a, s.approve, s.now);
      CompensationSteps.KeptTables(db, decided);
      TablesLiveOn(db, decided);
      ResolveSubjectLivesOn(decided, Subject(CompensationSubject, s.a), s.run);
      LivesOnOn(db, decided, o.db);
    }
  }

  /** Every step keeps tasks and runs alive, counts leases and claims, and only appends to checkpoint logs. */
  lemma StepLives(cfg: Settings, db: Db, s: Step)
    requires Inv(db)
    ensures TasksGrow(db, Next(cfg, db, s), Leases(cfg, db, s)) && RunsGrow(db, Next(cfg, db, s), Claims(cfg, db, s))
  {
    hide Inv, Progresses, TasksGrow, RunsGrow, CompensationSteps.ActionsAdvance, ActionTablesOnly,
      ActionSteps.Apply, CompensationSteps.Apply, TaskSteps.Apply, RunSteps.Apply;
    match s
    case OnAction(action) =>
      ActionSteps.StepAdvances(cfg, db, action);
      ProgressFacts(db, Next(cfg, db, s));
      TablesLiveOn(db, Next(cfg, db, s));
    case OnCompensation(comp) =>
      CompensationSteps.StepAdvances(cfg, db, comp);
      if comp.Decide? { DecisionLives(db, comp, cfg); } else { TablesLiveOn(db, Next(cfg, db, s)); }
    case OnTask(task) => TaskSteps.StepLives(cfg, db, task);
    case OnRun(run) => RunSteps.StepLives(cfg, db, run);
  }

  // ----- Whole runs -----------------------------------------------------------------------------------

  lemma EmptyIsRight()
    ensures Inv(EMPTY) && Exclusive(EMPTY) && Coupled(EMPTY) && RunsOk(EMPTY) && Linked(EMPTY)
  {
  }

  lemma RunsStayOk(db: Db, db': Db, claimed: Option<Claimed>)
    requires RunsOk(db) && Linked(db) && RunsGrow(db, db', claimed)
    ensures RunsOk(db') && Linked(db')
  {
    hide LogOk, OwnerOk, Linked;
    forall r | r in db'.runs ensures LogOk(db'.runs[r]) && OwnerOk(db'.runs[r]) {
      assert r in db.runs ==> RunGrows(db.runs[r], db'.runs[r], ClaimOf(claimed, r));
    }
  }

  /** In every reachable state the records agree and every checkpoint log adds up. */
  lemma {:induction false} Reachable(cfg: Settings, steps: seq<Step>)
    ensures Inv(State(cfg, steps)) && RunsOk(State(cfg, steps)) && Linked(State(cfg, steps))
  {
    hide Inv, RunsOk, Linked, Next, TasksGrow, RunsGrow, Grows;
    EmptyIsRight();
    if steps != [] {
      var before, last := State(cfg, steps[..|steps|-1]), steps[|steps|-1];
      Reachable(cfg, steps[..|steps|-1]);
      StepKeeps(cfg, before, last);
      StepLives(cfg, before, last);
      RunsStayOk(before, State(cfg, steps), Claims(cfg, before, last));
    }
  }

  /** Nothing is undone between any two moments of a run. */
  lemma {:induction false} GrowsAlong(cfg: Settings, steps: seq<Step>, i: nat, j: nat)
    requires i <= j <= |steps|
    ensures Grows(At(cfg, steps, i), At(cfg, steps, j))
    decreases j
  {
    hide Inv, Grows, State, Next, RunsOk;
    Reachable(cfg, steps[..i]);
    if i == j {
      NothingGrows(At(cfg, steps, i));
    } else {
      Reachable(cfg, steps[..j-1]);
      GrowsAlong(cfg, steps, i, j - 1);
      AtNext(cfg, steps, j - 1);
      StepKeeps(cfg, At(cfg, steps, j - 1), steps[j-1]);
      GrowsOn(At(cfg, steps, i), At(cfg, steps, j - 1), At(cfg, steps, j));
    }
  }
}
