/** The services on investigation runs as they run (backend/app/services/investigation_hitl.py,
    investigation_observations.py, investigations.py and the checkpoint of agent_runtime.py). */
module RunServices {
  import opened Common
  import opened InvestigationGraph
  import opened Records
  import opened Tables
  import InvestigationHitl
  import Investigations
  import RunnerTasks
  import Effects
  import opened RunInvariants
  import opened Agreement

  class InvestigationHITLService {
    const db: Database

    constructor (db: Database)
      ensures this.db == db
    {
      this.db := db;
    }

    /** `pending` is the answer of `_validate_pending_subject`. */
    method StartWait(r: RunId, checkpoint: ExecutionId, subject: Subject, expectedVersion: nat, pending: bool)
      returns (reply: Reply)
      modifies db
      ensures var o := InvestigationHitl.StartWait(old(db.State()), r, checkpoint, subject, expectedVersion, pending);
              reply == Answer(o) && db.State() == After(old(db.State()), o)
      ensures reply.Done? ==>
                && r in db.runs && db.runs[r].status.RunPaused? && db.runs[r].owner.None?
                && InvestigationHitl.WaitsFor(db.State(), HitlWait(r, subject))
                && r in old(db.runs) && db.runs[r].log == old(db.runs)[r].log
      ensures KeepsAgreement(old(db.State()), db.State())
    {
      hide KeepsAgreement;
      StartWaitAgrees(db.State(), r, checkpoint, subject, expectedVersion, pending);
      var w := HitlWait(r, subject);
      if w in db.waits {
        if db.waits[w].checkpoint != checkpoint { return Error(HitlWaitConflict); }
        return Repeated;
      }
      if r !in db.runs { return Error(RunNotFound); }
      var run := db.runs[r];
      if run.version != expectedVersion { return Error(RunVersionConflict); }
      if !run.status.RunRunning? { return Error(RunNotRunning); }
      if forall i :: 0 <= i < |run.log| ==> run.log[i].id != checkpoint { return Error(CheckpointNotFound); }
      if !pending { return Error(HitlSubjectNotPending); }
      db.waits := db.waits[w := Wait(Waiting, checkpoint, None)];
      db.runs := db.runs[r := run.(status := RunPaused, owner := None, lease := None, version := run.version + 1)];
      return Done;
    }

    /** `run` is the run of the wait `get_waiting_hitl_for_subject` found. */
    method ResolveSubject(subject: Subject, found: Option<RunId>) returns (reply: Reply)
      modifies db
      ensures var o := InvestigationHitl.ResolveSubject(old(db.State()), subject, found);
              reply == Answer(o) && db.State() == After(old(db.State()), o)
      ensures reply.Done? ==>
                forall w :: w in db.waits && w.HitlWait? && w.subject == subject && db.waits[w].status.Waiting? ==>
                  found.Some? && w.run != found.value
      ensures reply.Done? && found.Some? ==>
                && found.value in db.runs && found.value in old(db.runs)
                && db.runs[found.value].log == old(db.runs)[found.value].log
                && (old(db.runs)[found.value].status.RunPaused? ==> db.runs[found.value].status.RunQueued?)
      ensures KeepsAgreement(old(db.State()), db.State())
    {
      hide KeepsAgreement;
      ResolveSubjectAgrees(db.State(), subject, found);
      if found.None? {
        if exists w :: w in db.waits && w.HitlWait? && w.subject == subject && db.waits[w].status.Waiting? {
          return Error(NotOffered);
        }
        return Done;
      }
      var w := HitlWait(found.value, subject);
      if w !in db.waits || !db.waits[w].status.Waiting? { return Error(NotOffered); }
      if w.run !in db.runs { return Error(RunNotFound); }
      var run := db.runs[w.run];
      db.waits := db.waits[w := db.waits[w].(status := Resolved)];
      if run.status.RunPaused? {
        run := run.(status := RunQueued, owner := None, lease := None, version := run.version + 1);
      }
      db.runs := db.runs[w.run := run];
      return Done;
    }
  }

  class InvestigationObservationService {
    const db: Database

    constructor (db: Database)
      ensures this.db == db
    {
      this.db := db;
    }

    method StartWait(r: RunId, id: ExecutionId, i: Investigations.Interrupt) returns (reply: Reply)
      requires i.Observation? && r in db.runs
      modifies db
      ensures var o := Investigations.StartObservation(old(db.State()), r, id, i);
              reply == Answer(o) && db.State() == After(old(db.State()), o)
      ensures reply.Done? ==>
                && r in db.runs && db.runs[r].status.RunPaused? && db.runs[r].owner.None?
                && i.task !in old(db.tasks) && i.task in db.tasks && RunnerTasks.Live(db.tasks[i.task])
                && db.tasks[i.task].planStep == Some(i.planStep)
                && db.tasks[i.task].attempt == 0 < db.tasks[i.task].maxAttempts == i.maxAttempts
                && RunnerTasks.WaitingOn(db.State(), i.task) == Some(ObservationWait(r, id))
      ensures KeepsAgreement(old(db.State()), db.State())
    {
      hide KeepsAgreement;
      ObservationAgrees(db.State(), r, id, i);
      var w := ObservationWait(r, id);
      if w in db.waits { return Repeated; }
      var run := db.runs[r];
      if !run.status.RunRunning? { return Error(RunNotRunning); }
      if !i.stepRunning { return Error(ObservationStepInvalid); }
      if i.maxAttempts == 0 { return Error(TaskInvalid); }
      if i.task in db.tasks { return Error(NotOffered); }
      db.tasks := db.tasks[i.task := Task(Some(i.planStep), None, Some(w), None, TaskQueued, 0, i.maxAttempts,
                                          None, None, None)];
      db.waits := db.waits[w := Wait(Waiting, id, Some(i.task))];
      db.runs := db.runs[r := run.(status := RunPaused, owner := None, lease := None, version := run.version + 1)];
      return Done;
    }

    method ResolveTask(t: TaskId)
      requires t in db.tasks
      modifies db
      ensures db.State() == RunnerTasks.ResolveTask(old(db.State()), t)
      ensures Coupled(old(db.State())) ==> RunnerTasks.WaitingOn(db.State(), t).None?
      ensures db.tasks == old(db.tasks) && forall r :: r in old(db.runs) ==>
                r in db.runs && db.runs[r].log == old(db.runs)[r].log
      ensures KeepsAgreement(old(db.State()), db.State())
    {
      hide KeepsAgreement;
      ResolveTaskAgrees(db.State(), t);
      var wait := db.tasks[t].wait;
      if wait.None? || wait.value !in db.waits || !db.waits[wait.value].status.Waiting? { return; }
      var w := wait.value;
      assert Coupled(db.State()) ==> WaitOk(db.State(), w);
      if w.run !in db.runs { return; }
      var run := db.runs[w.run];
      db.waits := db.waits[w := db.waits[w].(status := Resolved)];
      if run.status.RunPaused? {
        run := run.(status := RunQueued, owner := None, lease := None, version := run.version + 1);
      }
      db.runs := db.runs[w.run := run];
    }
  }

  class InvestigationService {
    const db: Database
    const cfg: Settings

    constructor (db: Database, cfg: Settings)
      ensures this.db == db && this.cfg == cfg
    {
      this.db, this.cfg := db, cfg;
    }

    method CreateRun(r: RunId, graph: GraphVersion, maxIterations: nat, requestLimit: nat) returns (reply: Reply)
      modifies db
      ensures var o := Investigations.Create(old(db.State()), r, graph, maxIterations, requestLimit);
              reply == Answer(o) && db.State() == After(old(db.State()), o)
      ensures reply.Done? ==>
                && r in db.runs && db.runs[r].log == [] && db.runs[r].claimant.None?
                && db.runs[r].graph == graph && db.runs[r].maxIterations == maxIterations
                && db.runs[r].requestLimit == requestLimit && db.runs[r].requests == 0
                && forall later :: Investigations.Claimable(db.runs[r], later)
      ensures KeepsAgreement(old(db.State()), db.State())
    {
      hide KeepsAgreement;
      CreateRunAgrees(db.State(), r, graph, maxIterations, requestLimit);
      if r in db.runs { return Repeated; }
      db.runs :=
        db.runs[r := Run(graph, RunQueued, None, None, 1, maxIterations, 0, 0, requestLimit, 0, 0, 0, [], None)];
      return Done;
    }

    /** `candidate` is the row `claim_runtime_candidate` selected. */
    method ClaimNext(owner: Owner, candidate: Option<RunId>, now: Time) returns (reply: Reply)
      modifies db
      ensures var o := Investigations.Claim(cfg, old(db.State()), owner, candidate, now);
              reply == Answer(o) && db.State() == After(old(db.State()), o)
      ensures reply.Done? ==>
                && candidate.Some? && candidate.value in db.runs && db.runs[candidate.value].owner == Some(owner)
                && forall later :: Investigations.Claimable(db.runs[candidate.value], later)
                                   <==> now + cfg.runLease <= later
      ensures KeepsAgreement(old(db.State()), db.State())
    {
      hide KeepsAgreement;
      ClaimRunAgrees(cfg, db.State(), owner, candidate, now);
      if candidate.None? { return Nothing; }
      var r := candidate.value;
      if r !in db.runs || !Investigations.Claimable(db.runs[r], now) { return Error(NotOffered); }
      db.runs := db.runs[r := db.runs[r].(status := RunRunning, owner := Some(owner), lease := Some(now + cfg.runLease),
                                          version := db.runs[r].version + 1, claimant := Some(owner))];
      return Done;
    }

    method RenewLease(r: RunId, owner: Owner, now: Time) returns (reply: Reply)
      modifies db
      ensures var o := Investigations.RenewLease(cfg, old(db.State()), r, owner, now);
              reply == Answer(o) && db.State() == After(old(db.State()), o)
      ensures reply.Done? <==>
                r in old(db.runs) && old(db.runs)[r].status.RunRunning? && old(db.runs)[r].owner == Some(owner)
      ensures reply.Done? ==>
                r in db.runs && forall later :: Investigations.Claimable(db.runs[r], later)
                                                <==> now + cfg.runLease <= later
      ensures KeepsAgreement(old(db.State()), db.State())
    {
      hide KeepsAgreement;
      RenewRunAgrees(cfg, db.State(), r, owner, now);
      if r !in db.runs || !db.runs[r].status.RunRunning? || db.runs[r].owner != Some(owner) {
        return Error(RunLeaseLost);
      }
      db.runs := db.runs[r := db.runs[r].(lease := Some(now + cfg.runLease))];
      return Done;
    }

    /** Search the log for a node execution, as the query does. */
    method FindCheckpoint(run: Run, id: ExecutionId) returns (k: nat)
      ensures k == Investigations.Find(run.log, id)
    {
      k := 0;
      while k < |run.log| && run.log[k].id != id
        invariant k <= |run.log|
        invariant forall i :: 0 <= i < k ==> run.log[i].id != id
      {
        k := k + 1;
      }
      FirstIsFound(run.log, id, k);
    }

    /** `_validate_completed_node_keys`. */
    method KeysAreRegistered(graph: GraphVersion, keys: seq<Key>) returns (ok: bool)
      ensures ok <==> forall k :: k in keys ==> Registered(graph, k.node)
    {
      for i := 0 to |keys|
        invariant forall j :: 0 <= j < i ==> Registered(graph, keys[j].node)
      {
        if !Registered(graph, keys[i].node) { return false; }
      }
      return true;
    }

    /** The checks of a new checkpoint, in the order of the code. */
    method Validate(run: Run, c: Content, referencesExist: bool) returns (error: Option<Code>)
      ensures error == Investigations.CheckpointError(run, c, referencesExist)
    {
      if !run.status.RunRunning? { return Some(RunNotRunning); }
      if !Registered(run.graph, c.node) { return Some(NodeNotFound); }
      if c.iteration < run.iteration || c.iteration > run.maxIterations { return Some(InvalidIteration); }
      SizesTellDuplicates(c.completed);
      if |set k | k in c.completed| != |c.completed| { return Some(DuplicateKey); }
      var registered := KeysAreRegistered(run.graph, c.completed);
      if !registered { return Some(InvalidKey); }
      if c.noProgress > c.iteration + 1 { return Some(InvalidNoProgress); }
      if !referencesExist { return Some(ReferenceNotFound); }
      if run.requests + c.requests > run.requestLimit { return Some(RequestBudgetExhausted); }
      return None;
    }

    method WriteCheckpoint(r: RunId, id: ExecutionId, expectedVersion: nat, c: Content, referencesExist: bool,
                           writer: Option<Owner>) returns (reply: Reply)
      modifies db
      ensures var o :=
                Investigations.WriteCheckpoint(old(db.State()), r, id, expectedVersion, c, referencesExist, writer);
              reply == Answer(o) && db.State() == After(old(db.State()), o)
      ensures KeepsAgreement(old(db.State()), db.State())
    {
      hide KeepsAgreement;
      CheckpointAgrees(db.State(), r, id, expectedVersion, c, referencesExist, writer);
      hide Investigations.CheckpointError;
      if r !in db.runs { return Error(RunNotFound); }
      var run := db.runs[r];
      var k := FindCheckpoint(run, id);
      if k < |run.log| {
        if run.log[k].content != c { return Error(CheckpointIdempotencyConflict); }
        return Repeated;
      }
      if run.version != expectedVersion { return Error(RunVersionConflict); }
      var error := Validate(run, c, referencesExist);
      if error.Some? { return Error(error.value); }
      var sequence := run.sequence + 1;
      run := run.(log := run.log + [CheckpointRow(id, sequence, c, writer)]);
      run := run.(iteration := c.iteration, sequence := sequence);
      run := run.(requests := run.requests + c.requests, inputTokens := run.inputTokens + c.inputTokens,
                  outputTokens := run.outputTokens + c.outputTokens, version := run.version + 1);
      db.runs := db.runs[r := run];
      return Done;
    }

    method Transition(r: RunId, expectedVersion: nat, target: RunStatus) returns (reply: Reply)
      requires Linked(db.State())
      modifies db
      ensures var o := Investigations.Transition(old(db.State()), r, expectedVersion, target);
              reply == Answer(o) && db.State() == After(old(db.State()), o)
      ensures KeepsUnlessForgotten(old(db.State()), db.State(), r, expectedVersion, target)
      ensures reply.Done? ==> Effects.RunMoved(old(db.State()), db.State(), r, target)
    {
      hide Effects.RunMoved, KeepsUnlessForgotten, Investigations.CancelWaits, Linked;
      Effects.TransitionSettles(db.State(), r, expectedVersion, target);
      TransitionAgrees(db.State(), r, expectedVersion, target);
      ghost var before := db.State();
      if r !in db.runs { return Error(RunNotFound); }
      var run := db.runs[r];
      if run.version != expectedVersion { return Error(RunVersionConflict); }
      if !Investigations.AllowedTransition(run.status, target) { return Error(InvalidRunTransition); }
      run := run.(status := target, version := run.version + 1);
      if Investigations.TerminalRun(target) || target.RunPaused? { run := run.(owner := None, lease := None); }
      db.runs := db.runs[r := run];
      SameLinksKeep(before, db.State());
      if target.RunCancelled? { CancelWaits(r); }
      return Done;
    }

    method CancelWait(w: WaitKey)
      requires w in db.waits && Linked(db.State())
      modifies db
      ensures db.State() == CancelOne(old(db.State()), w)
    {
      db.waits := db.waits[w := db.waits[w].(status := WaitCancelled)];
      if w.ObservationWait? {
        var t := db.waits[w].task.value;
        if t in db.tasks && RunnerTasks.Live(db.tasks[t]) {
          db.tasks := db.tasks[t := db.tasks[t].(status := TaskCancelled, token := None, lease := None)];
        }
      }
    }

    /** Cancel the waiting waits of a run one by one, each with its task. */
    method CancelWaits(r: RunId)
      requires Linked(db.State())
      modifies db
      ensures db.State() == Investigations.CancelWaits(old(db.State()), r)
    {
      hide Linked, Investigations.CancelSet, CancelOne;
      ghost var before := db.State();
      ghost var gone := set w | w in before.waits && Investigations.WaitsForRun(before, w, r);
      var todo := set w | w in db.waits && w.run == r && db.waits[w].status.Waiting?;
      assert todo == gone;
      CancelNone(before);
      assert gone - todo == {};
      while todo != {}
        invariant todo <= gone <= before.waits.Keys
        invariant db.State() == Investigations.CancelSet(before, gone - todo)
        decreases |todo|
      {
        var w :| w in todo;
        CancelOneMore(before, gone - todo, w);
        assert gone - todo + {w} == gone - (todo - {w});
        CancelWait(w);
        todo := todo - {w};
      }
      assert gone - {} == gone;
    }
  }

  /** The worker's side: both methods act only while the worker owns the run. */
  class AgentRuntimeWorker {
    const db: Database
    const cfg: Settings
    const owner: Owner

    constructor (db: Database, cfg: Settings, owner: Owner)
      ensures this.db == db && this.cfg == cfg && this.owner == owner
    {
      this.db, this.cfg, this.owner := db, cfg, owner;
    }

    /** `_write_checkpoint`: the checkpoint and the wait it asks for are one transaction. */
    method WriteCheckpoint(r: RunId, id: ExecutionId, c: Content, referencesExist: bool, i: Investigations.Interrupt)
      returns (reply: Reply)
      modifies db
      ensures var o := Investigations.ExecutorCheckpoint(old(db.State()), r, owner, id, c, referencesExist, i);
              reply == Answer(o) && db.State() == After(old(db.State()), o)
      ensures KeepsAgreement(old(db.State()), db.State())
    {
      hide KeepsAgreement;
      ExecutorCheckpointAgrees(db.State(), r, owner, id, c, referencesExist, i);
      hide Investigations.WriteCheckpoint, InvestigationHitl.StartWait, Investigations.StartObservation;
      var before := db.State();
      if r !in db.runs || db.runs[r].owner != Some(owner) { return Error(RunLeaseLost); }
      var investigations := new InvestigationService(db, cfg);
      RunStays(before, r, id, before.runs[r].version, c, referencesExist, Some(owner));
      reply := investigations.WriteCheckpoint(r, id, db.runs[r].version, c, referencesExist, Some(owner));
      if reply.Error? || i.NoInterrupt? { return reply; }
      if i.Hitl? {
        var hitl := new InvestigationHITLService(db);
        reply := hitl.StartWait(r, id, i.subject, db.runs[r].version, i.pending);
      } else {
        var observations := new InvestigationObservationService(db);
        reply := observations.StartWait(r, id, i);
      }
      if reply.Error? { db.Rollback(before); }
    }

    method Finish(r: RunId, target: RunStatus) returns (reply: Reply)
      requires Linked(db.State())
      modifies db
      ensures var o := Investigations.FinishRun(old(db.State()), r, owner, target);
              reply == Answer(o) && db.State() == After(old(db.State()), o)
      ensures KeepsAgreement(old(db.State()), db.State())
    {
      hide KeepsAgreement;
      FinishAgrees(db.State(), r, owner, target);
      hide Investigations.Transition, Linked;
      if r !in db.runs { return Error(RunNotFound); }
      var run := db.runs[r];
      if run.status == target && run.owner.None? { return Repeated; }
      if run.owner != Some(owner) { return Error(RunLeaseLost); }
      var investigations := new InvestigationService(db, cfg);
      reply := investigations.Transition(r, run.version, target);
    }
  }

  lemma RunStays(db: Db, r: RunId, id: ExecutionId, version: nat, c: Content, references: bool, writer: Option<Owner>)
    requires r in db.runs
    ensures var o := Investigations.WriteCheckpoint(db, r, id, version, c, references, writer);
            o.Refused? || (r in o.db.runs && !o.Idle?)
  {
  }

  function CancelOne(db: Db, w: WaitKey): Db
    requires w in db.waits
  {
    var cancelled := db.(waits := db.waits[w := db.waits[w].(status := WaitCancelled)]);
    match db.waits[w].task
    case None => cancelled
    case Some(t) =>
      if t !in db.tasks then cancelled else cancelled.(tasks := db.tasks[t := Investigations.Withdrawn(db.tasks[t])])
  }

  lemma CancelNone(db: Db)
    ensures Investigations.CancelSet(db, {}) == db
  {
    var same := Investigations.CancelSet(db, {});
    assert same.waits == db.waits && same.tasks == db.tasks;
  }

  /** Cancelling one more wait in place is cancelling the larger set, in whatever order the rows come. */
  lemma CancelOneMore(db: Db, gone: set<WaitKey>, w: WaitKey)
    requires Linked(db) && w in db.waits && w !in gone
    ensures var mid := Investigations.CancelSet(db, gone);
            && Linked(mid) && w in mid.waits && CancelOne(mid, w) == Investigations.CancelSet(db, gone + {w})
  {
    hide Linked, Investigations.CancelledWaits, Investigations.WithdrawnTasks, Investigations.Withdrawn;
    CancelledStayLinked(db, gone);
    CancelWaitMore(db.waits, gone, w);
    WithdrawMore(db, gone, w);
  }

  lemma CancelledStayLinked(db: Db, gone: set<WaitKey>)
    ensures SameLinks(db, Investigations.CancelSet(db, gone))
    ensures Linked(db) ==> Linked(Investigations.CancelSet(db, gone))
  {
    hide Linked;
    SameLinksKeep(db, Investigations.CancelSet(db, gone));
  }

  lemma CancelWaitMore(waits: map<WaitKey, Wait>, gone: set<WaitKey>, w: WaitKey)
    requires w in waits && w !in gone
    ensures var mid := Investigations.CancelledWaits(waits, gone);
            && w in mid && mid[w].task == waits[w].task
            && Investigations.CancelledWaits(waits, gone + {w}) == mid[w := mid[w].(status := WaitCancelled)]
  {
  }

  /** By the links, at most one task waits for a wait. */
  lemma WithdrawMore(db: Db, gone: set<WaitKey>, w: WaitKey)
    requires Linked(db) && w in db.waits && w !in gone
    ensures var mid := Investigations.WithdrawnTasks(db.tasks, gone);
            Investigations.WithdrawnTasks(db.tasks, gone + {w}) ==
            match db.waits[w].task
            case None => mid
            case Some(t) => if t in mid then mid[t := Investigations.Withdrawn(mid[t])] else mid
  {
    hide Investigations.Withdrawn;
    forall t | t in db.tasks && db.tasks[t].wait == Some(w) ensures db.waits[w].task == Some(t) {
      assert WaitLinked(db, t);
    }
  }

  lemma FirstIsFound(log: seq<CheckpointRow>, id: ExecutionId, k: nat)
    requires k <= |log| && (k < |log| ==> log[k].id == id) && forall i :: 0 <= i < k ==> log[i].id != id
    ensures Investigations.Find(log, id) == k
  {
    if k > 0 { FirstIsFound(log[1..], id, k - 1); }
  }

  lemma LastDuplicates(keys: seq<Key>)
    requires keys != []
    ensures var front, last := keys[..|keys|-1], keys[|keys|-1];
            Investigations.HasDuplicate(keys) <==> Investigations.HasDuplicate(front) || last in front
  {
    var front, last := keys[..|keys|-1], keys[|keys|-1];
    if last in front {
      var i :| 0 <= i < |front| && front[i] == last;
      assert keys[i] == keys[|keys|-1];
    }
    if i, j :| 0 <= i < j < |front| && front[i] == front[j] {
      assert keys[i] == keys[j];
    }
    if i, j :| 0 <= i < j < |keys| && keys[i] == keys[j] {
      assert front[i] == keys[i] && (j < |front| ==> front[j] == keys[j]);
    }
  }

  /** Comparing the sizes of the list and of its set finds exactly the duplicates. */
  lemma {:induction false} SizesTellDuplicates(keys: seq<Key>)
    ensures |set k | k in keys| <= |keys|
    ensures |set k | k in keys| != |keys| <==> Investigations.HasDuplicate(keys)
  {
    hide Investigations.HasDuplicate;
    if keys == [] {
      NoDuplicates();
    } else {
      var front, last := keys[..|keys|-1], keys[|keys|-1];
      SizesTellDuplicates(front);
      LastDuplicates(keys);
      var all, before := set k | k in keys, set k | k in front;
      assert keys == front + [last];
      assert all == if last in front then before else before + {last};
    }
  }

  lemma NoDuplicates()
    ensures !Investigations.HasDuplicate([])
  {
  }
}
