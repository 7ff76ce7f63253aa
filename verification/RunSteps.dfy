/** The requests on investigation runs and their waits as steps of a run of the system. */
module RunSteps {
  import opened Common
  import opened InvestigationGraph
  import opened Records
  import opened ActionInvariants
  import opened TaskPreservation
  import opened TaskCoupling
  import opened TaskLife
  import opened InvestigationHitl
  import opened Investigations
  import opened RunInvariants
  import opened RunPreservation

  datatype RunStep =
    | Create(r: RunId, graph: GraphVersion, maxIterations: nat, requestLimit: nat)
    | Claim(owner: Owner, candidate: Option<RunId>, now: Time)
    | Renew(r: RunId, owner: Owner, now: Time)
    | Write(r: RunId, id: ExecutionId, version: nat, content: Content, referencesExist: bool)
    | ExecutorWrite(r: RunId, owner: Owner, id: ExecutionId, content: Content, referencesExist: bool,
      interrupt: Interrupt)
    | StartWait(r: RunId, checkpoint: ExecutionId, subject: Subject, version: nat, pending: bool)
    | Resolve(subject: Subject, run: Option<RunId>)
    | Transition(r: RunId, version: nat, target: RunStatus)
    | Finish(r: RunId, owner: Owner, target: RunStatus)

  function Apply(cfg: Settings, db: Db, s: RunStep): Outcome {
    match s
    case Create(r, graph, maxIterations, requestLimit) =>
      Investigations.Create(db, r, graph, maxIterations, requestLimit)
    case Claim(owner, candidate, now) => Investigations.Claim(cfg, db, owner, candidate, now)
    case Renew(r, owner, now) => RenewLease(cfg, db, r, owner, now)
    case Write(r, id, version, c, references) => WriteCheckpoint(db, r, id, version, c, references, None)
    case ExecutorWrite(r, owner, id, c, references, i) => ExecutorCheckpoint(db, r, owner, id, c, references, i)
    case StartWait(r, checkpoint, subject, version, pending) =>
      InvestigationHitl.StartWait(db, r, checkpoint, subject, version, pending)
    case Resolve(subject, run) => ResolveSubject(db, subject, run)
    case Transition(r, version, target) => Investigations.Transition(db, r, version, target)
    case Finish(r, owner, target) => FinishRun(db, r, owner, target)
  }

  /** The run a step gives to a worker. */
  function Claims(cfg: Settings, db: Db, s: RunStep): Option<Claimed> {
    if s.Claim? then ClaimedBy(Apply(cfg, db, s), s.candidate, s.owner) else None
  }

  lemma FinishLivesOn(db: Db, r: RunId, owner: Owner, target: RunStatus)
    ensures LivesOn(db, After(db, FinishRun(db, r, owner, target)))
  {
    hide LivesOn, Investigations.Transition;
    NothingDies(db);
    if r in db.runs { TransitionLivesOn(db, r, db.runs[r].version, target); }
  }

  lemma StepLives(cfg: Settings, db: Db, s: RunStep)
    ensures var db' := After(db, Apply(cfg, db, s));
            TasksGrow(db, db', None) && RunsGrow(db, db', Claims(cfg, db, s))
  {
    hide TasksGrow, RunsGrow, Investigations.Create, Investigations.Claim, RenewLease, WriteCheckpoint,
      ExecutorCheckpoint, InvestigationHitl.StartWait, ResolveSubject, Investigations.Transition, FinishRun;
    match s
    case Create(r, graph, maxIterations, requestLimit) => CreateRunLivesOn(db, r, graph, maxIterations, requestLimit);
    case Claim(owner, candidate, now) => ClaimRunGrows(cfg, db, owner, candidate, now);
    case Renew(r, owner, now) => RenewLeaseLivesOn(cfg, db, r, owner, now);
    case Write(r, id, version, c, references) => CheckpointLivesOn(db, r, id, version, c, references, None);
    case ExecutorWrite(r, owner, id, c, references, i) => ExecutorCheckpointLivesOn(db, r, owner, id, c, references, i);
    case StartWait(r, checkpoint, subject, version, pending) =>
      StartWaitLivesOn(db, r, checkpoint, subject, version, pending);
    case Resolve(subject, run) => ResolveSubjectLivesOn(db, subject, run);
    case Transition(r, version, target) => TransitionLivesOn(db, r, version, target);
    case Finish(r, owner, target) => FinishLivesOn(db, r, owner, target);
  }

  lemma RunRowsKeep(cfg: Settings, db: Db, s: RunStep)
    requires Inv(db) && (s.Create? || s.Claim? || s.Renew? || s.Resolve?)
    ensures Keeps(db, After(db, Apply(cfg, db, s)))
  {
    hide Inv, Keeps, RenewLease;
    var db' := After(db, Apply(cfg, db, s));
    if s.Renew? { RenewTables(cfg, db, s.r, s.owner, s.now); }
    RunTablesKeep(db, db');
  }

  lemma RenewTables(cfg: Settings, db: Db, r: RunId, owner: Owner, now: Time)
    ensures var db' := After(db, RenewLease(cfg, db, r, owner, now));
            db' == db.(runs := db'.runs)
  {
  }

  lemma FinishIsKept(db: Db, r: RunId, owner: Owner, target: RunStatus)
    requires Inv(db)
    ensures Keeps(db, After(db, FinishRun(db, r, owner, target)))
  {
    hide Inv, Keeps, Investigations.Transition;
    TaskPreservation.NothingIsKept(db);
    if r in db.runs { TransitionKeeps(db, r, db.runs[r].version, target); }
  }

  /** Every request about runs keeps the records of actions in agreement. */
  lemma StepKeeps(cfg: Settings, db: Db, s: RunStep)
    requires Inv(db)
    ensures Keeps(db, After(db, Apply(cfg, db, s)))
  {
    hide Inv, Keeps, WriteCheckpoint, ExecutorCheckpoint, InvestigationHitl.StartWait, Investigations.Transition,
      FinishRun, Investigations.Create, Investigations.Claim, RenewLease, ResolveSubject;
    match s
    case Write(r, id, version, c, references) => CheckpointIsKept(db, r, id, version, c, references, None);
    case ExecutorWrite(r, owner, id, c, references, i) => ExecutorCheckpointIsKept(db, r, owner, id, c, references, i);
    case StartWait(r, checkpoint, subject, version, pending) =>
      StartWaitIsKept(db, r, checkpoint, subject, version, pending);
    case Transition(r, version, target) => TransitionKeeps(db, r, version, target);
    case Finish(r, owner, target) => FinishIsKept(db, r, owner, target);
    case _ => RunRowsKeep(cfg, db, s);
  }

  /** The status changes that break the coupling of waits: an allowed transition of the expected version, other than a
      cancellation, while the run waits. */
  ghost predicate ForgetsWait(db: Db, s: RunStep) {
    && s.Transition? && s.r in db.runs && db.runs[s.r].version == s.version
    && Investigations.AllowedTransition(db.runs[s.r].status, s.target)
    && !s.target.RunCancelled? && Waits(db, s.r)
  }

  lemma TransitionIsRefused(db: Db, r: RunId, version: nat, target: RunStatus)
    ensures Investigations.Transition(db, r, version, target).Refused?
            <==> !(r in db.runs && db.runs[r].version == version
                   && Investigations.AllowedTransition(db.runs[r].status, target))
  {
  }

  lemma StepKeepsCoupling(cfg: Settings, db: Db, s: RunStep)
    requires Coupled(db) && RunsOk(db)
    ensures Coupled(After(db, Apply(cfg, db, s))) <==> !ForgetsWait(db, s)
  {
    hide Coupled, RunsOk, Waits, Investigations.Create, Investigations.Claim, RenewLease, WriteCheckpoint,
      ExecutorCheckpoint, InvestigationHitl.StartWait, ResolveSubject, Investigations.Transition, FinishRun;
    match s
    case Create(r, graph, maxIterations, requestLimit) => CreateKeeps(db, r, graph, maxIterations, requestLimit);
    case Claim(owner, candidate, now) => ClaimKeeps(cfg, db, owner, candidate, now);
    case Renew(r, owner, now) => RenewKeeps(cfg, db, r, owner, now);
    case Write(r, id, version, c, references) => CheckpointKeeps(db, r, id, version, c, references, None);
    case ExecutorWrite(r, owner, id, c, references, i) => ExecutorCheckpointKeeps(db, r, owner, id, c, references, i);
    case StartWait(r, checkpoint, subject, version, pending) =>
      StartWaitKeeps(db, r, checkpoint, subject, version, pending);
    case Resolve(subject, run) => ResolveSubjectKeeps(db, subject, run);
    case Transition(r, version, target) =>
      TransitionKeepsCoupling(db, r, version, target);
      TransitionIsRefused(db, r, version, target);
    case Finish(r, owner, target) => FinishKeeps(db, r, owner, target);
  }
}
