/** Every step on runs and waits: what keeps the log and the coupling of waits, and exactly which status
    changes break the coupling. */
module RunPreservation {
  import opened Common
  import opened InvestigationGraph
  import opened Records
  import opened RunnerTasks
  import opened InvestigationHitl
  import opened Investigations
  import opened RunInvariants

  /** The run has a waiting wait. */
  ghost predicate Waits(db: Db, r: RunId) {
    exists w :: w in db.waits && WaitsForRun(db, w, r)
  }

  lemma WaitingRunIsPaused(db: Db, r: RunId)
    requires Coupled(db) && r in db.runs && !db.runs[r].status.RunPaused?
    ensures !Waits(db, r)
  {
    NoOtherWait(db, r);
  }

  /** Changing a run nobody waits in keeps the coupling; changing its log keeps the log. */
  lemma SetRunKeeps(db: Db, r: RunId, run: Run)
    requires Coupled(db) && RunsOk(db) && LogOk(run) && OwnerOk(run)
    requires Waits(db, r) ==> run.status.RunPaused? && run.owner.None?
    ensures Coupled(SetRun(db, r, run)) && RunsOk(SetRun(db, r, run))
  {
    hide LogOk;
    var db' := SetRun(db, r, run);
    forall w | w in db'.waits ensures WaitOk(db', w) {
      assert WaitOk(db, w);
    }
    forall t | t in db'.tasks ensures WaitLinked(db', t) {
      assert WaitLinked(db, t);
    }
  }

  lemma RunFacts(db: Db, r: RunId)
    requires RunsOk(db) && r in db.runs
    ensures LogOk(db.runs[r]) && OwnerOk(db.runs[r])
  {
  }

  lemma CreateKeeps(db: Db, r: RunId, graph: GraphVersion, maxIterations: nat, requestLimit: nat)
    requires Coupled(db) && RunsOk(db)
    ensures var db' := After(db, Investigations.Create(db, r, graph, maxIterations, requestLimit));
            Coupled(db') && RunsOk(db')
  {
    if r !in db.runs {
      forall w | w in db.waits ensures w.run != r {
        assert WaitOk(db, w);
      }
      SetRunKeeps(db, r, Run(graph, RunQueued, None, None, 1, maxIterations, 0, 0, requestLimit, 0, 0, 0, [], None));
    }
  }

  lemma ClaimKeeps(cfg: Settings, db: Db, owner: Owner, candidate: Option<RunId>, now: Time)
    requires Coupled(db) && RunsOk(db)
    ensures var db' := After(db, Investigations.Claim(cfg, db, owner, candidate, now));
            Coupled(db') && RunsOk(db')
  {
    hide Coupled, RunsOk, LogOk;
    if Investigations.Claim(cfg, db, owner, candidate, now).Accepted? {
      var r := candidate.value;
      var run := db.runs[r];
      RunFacts(db, r);
      WaitingRunIsPaused(db, r);
      var claimed := run.(status := RunRunning, owner := Some(owner), lease := Some(now + cfg.runLease),
                          version := run.version + 1, claimant := Some(owner));
      LogIgnoresStatus(run, claimed);
      SetRunKeeps(db, r, claimed);
    }
  }

  lemma RenewKeeps(cfg: Settings, db: Db, r: RunId, owner: Owner, now: Time)
    requires Coupled(db) && RunsOk(db)
    ensures var db' := After(db, RenewLease(cfg, db, r, owner, now));
            Coupled(db') && RunsOk(db')
  {
    hide Coupled, RunsOk, LogOk;
    if RenewLease(cfg, db, r, owner, now).Accepted? {
      RunFacts(db, r);
      WaitingRunIsPaused(db, r);
      var renewed := db.runs[r].(lease := Some(now + cfg.runLease));
      LogIgnoresStatus(db.runs[r], renewed);
      SetRunKeeps(db, r, renewed);
    }
  }

  // ----- Checkpoints ---------------------------------------------------------------------------------

  lemma CheckpointKeeps(db: Db, r: RunId, id: ExecutionId, version: nat, c: Content, references: bool,
                        writer: Option<Owner>)
    requires Coupled(db) && RunsOk(db)
    ensures var db' := After(db, WriteCheckpoint(db, r, id, version, c, references, writer));
            Coupled(db') && RunsOk(db')
  {
    hide Coupled, RunsOk, LogOk, Recorded;
    if WriteCheckpoint(db, r, id, version, c, references, writer).Accepted? {
      RunFacts(db, r);
      WaitingRunIsPaused(db, r);
      RecordedKeepsLog(db.runs[r], id, c, references, writer);
      RecordedKeepsOwner(db.runs[r], id, c, writer);
      SetRunKeeps(db, r, Recorded(db.runs[r], id, c, writer));
    }
  }

  lemma RecordedKeepsOwner(run: Run, id: ExecutionId, c: Content, writer: Option<Owner>)
    requires OwnerOk(run)
    ensures OwnerOk(Recorded(run, id, c, writer))
  {
  }

  // ----- Waits ------------------------------------------------------------------------------------------

  /** A running run stops for a new wait; the task of the wait, if it has one, is new and live. */
  function Stopped(db: Db, w: WaitKey, wait: Wait, task: Option<Task>): Db
    requires w.run in db.runs && (task.Some? ==> wait.task.Some?)
  {
    db.(tasks := if task.Some? then db.tasks[wait.task.value := task.value] else db.tasks,
        waits := db.waits[w := wait],
        runs := db.runs[w.run := Paused(db.runs[w.run])])
  }

  /** The new wait, its task, and the run that has no other wait. */
  ghost predicate NewWait(db: Db, w: WaitKey, wait: Wait, task: Option<Task>) {
    && w !in db.waits && wait.status.Waiting? && w.run in db.runs && db.runs[w.run].status.RunRunning?
    && (task.Some? <==> wait.task.Some?) && (task.Some? <==> w.ObservationWait?)
    && (task.Some? ==> wait.task.value !in db.tasks && Live(task.value)
                       && task.value.wait == Some(w) && task.value.verification.None?)
  }

  lemma StoppedWait(db: Db, w: WaitKey, wait: Wait, task: Option<Task>, v: WaitKey)
    requires NewWait(db, w, wait, task) && v in Stopped(db, w, wait, task).waits
    requires v != w ==> v in db.waits && WaitOk(db, v) && (v.run == w.run ==> !db.waits[v].status.Waiting?)
    ensures WaitOk(Stopped(db, w, wait, task), v)
  {
  }

  lemma StoppedLink(db: Db, w: WaitKey, wait: Wait, task: Option<Task>, t: TaskId)
    requires NewWait(db, w, wait, task) && t in Stopped(db, w, wait, task).tasks
    requires t in db.tasks ==> WaitLinked(db, t)
    ensures WaitLinked(Stopped(db, w, wait, task), t)
  {
  }

  lemma StoppedKeeps(db: Db, w: WaitKey, wait: Wait, task: Option<Task>)
    requires Coupled(db) && RunsOk(db) && NewWait(db, w, wait, task)
    ensures Coupled(Stopped(db, w, wait, task)) && RunsOk(Stopped(db, w, wait, task))
  {
    hide LogOk, Waits, WaitOk, WaitLinked;
    var db' := Stopped(db, w, wait, task);
    RunFacts(db, w.run);
    LogIgnoresStatus(db.runs[w.run], db'.runs[w.run]);
    NoOtherWait(db, w.run);
    forall v | v in db'.waits ensures WaitOk(db', v) {
      StoppedWait(db, w, wait, task, v);
    }
    forall t | t in db'.tasks ensures WaitLinked(db', t) {
      StoppedLink(db, w, wait, task, t);
    }
  }

  lemma NoOtherWait(db: Db, r: RunId)
    requires Coupled(db) && r in db.runs && !db.runs[r].status.RunPaused?
    ensures forall v :: v in db.waits && v.run == r ==> !db.waits[v].status.Waiting?
  {
    forall v | v in db.waits && v.run == r ensures !db.waits[v].status.Waiting? {
      assert WaitOk(db, v);
    }
  }

  lemma StartWaitKeeps(db: Db, r: RunId, checkpoint: ExecutionId, subject: Subject, version: nat, pending: bool)
    requires Coupled(db) && RunsOk(db)
    ensures var db' := After(db, StartWait(db, r, checkpoint, subject, version, pending));
            Coupled(db') && RunsOk(db')
  {
    hide Coupled, RunsOk;
    if StartWait(db, r, checkpoint, subject, version, pending).Accepted? {
      StoppedKeeps(db, HitlWait(r, subject), Wait(Waiting, checkpoint, None), None);
    }
  }

  lemma StartObservationKeeps(db: Db, r: RunId, id: ExecutionId, i: Interrupt)
    requires Coupled(db) && RunsOk(db) && i.Observation? && r in db.runs
    ensures var db' := After(db, StartObservation(db, r, id, i));
            Coupled(db') && RunsOk(db')
  {
    hide Coupled, RunsOk;
    if StartObservation(db, r, id, i).Accepted? {
      var w := ObservationWait(r, id);
      StoppedKeeps(db, w, Wait(Waiting, id, Some(i.task)),
                   Some(Task(Some(i.planStep), None, Some(w), None, TaskQueued, 0, i.maxAttempts, None, None, None)));
    }
  }

  lemma ExecutorCheckpointKeeps(db: Db, r: RunId, owner: Owner, id: ExecutionId, c: Content, references: bool,
                                i: Interrupt)
    requires Coupled(db) && RunsOk(db)
    ensures var db' := After(db, ExecutorCheckpoint(db, r, owner, id, c, references, i));
            Coupled(db') && RunsOk(db')
  {
    hide Coupled, RunsOk, WriteCheckpoint, StartWait, StartObservation;
    if r in db.runs && db.runs[r].owner == Some(owner) {
      CheckpointKeeps(db, r, id, db.runs[r].version, c, references, Some(owner));
      var written := WriteCheckpoint(db, r, id, db.runs[r].version, c, references, Some(owner));
      if !written.Refused? && r in written.db.runs {
        if i.Hitl? { StartWaitKeeps(written.db, r, id, i.subject, written.db.runs[r].version, i.pending); }
        if i.Observation? { StartObservationKeeps(written.db, r, id, i); }
      }
    }
  }

  /** Resolving a human's wait puts its run back into the queue. */
  lemma ResolveSubjectKeeps(db: Db, subject: Subject, run: Option<RunId>)
    requires Coupled(db) && RunsOk(db)
    ensures var db' := After(db, ResolveSubject(db, subject, run));
            Coupled(db') && RunsOk(db')
  {
    hide LogOk;
    if run.Some? && ResolveSubject(db, subject, run).Accepted? {
      var w := HitlWait(run.value, subject);
      var db' := ResolveWait(db, w);
      assert WaitOk(db, w);
      LogIgnoresStatus(db.runs[w.run], db'.runs[w.run]);
      forall v | v in db'.waits ensures WaitOk(db', v) {
        assert WaitOk(db, v);
      }
      forall t | t in db'.tasks ensures WaitLinked(db', t) {
        assert WaitLinked(db, t);
      }
    }
  }

  // ----- Status changes ----------------------------------------------------------------------------------

  function Moved(run: Run, target: RunStatus): Run {
    var stops := TerminalRun(target) || target.RunPaused?;
    run.(status := target, version := run.version + 1,
         owner := if stops then None else run.owner, lease := if stops then None else run.lease)
  }

  lemma MovedIsRight(run: Run, target: RunStatus)
    requires LogOk(run) && OwnerOk(run) && AllowedTransition(run.status, target)
    ensures LogOk(Moved(run, target)) && OwnerOk(Moved(run, target))
  {
    hide LogOk;
    LogIgnoresStatus(run, Moved(run, target));
  }

  lemma CancelledWait(db: Db, r: RunId, v: WaitKey)
    requires v in db.waits && WaitLinksOk(db, v) && (v.run != r ==> WaitOk(db, v))
    ensures v in CancelWaits(db, r).waits && WaitOk(CancelWaits(db, r), v)
  {
  }

  /** The part of WaitOk that does not depend on the run's status. */
  predicate WaitLinksOk(db: Db, w: WaitKey)
    requires w in db.waits
  {
    var wait := db.waits[w];
    && w.run in db.runs && (wait.task.Some? <==> w.ObservationWait?)
    && (wait.task.Some? ==> wait.task.value in db.tasks && db.tasks[wait.task.value].wait == Some(w))
  }

  lemma CancelledLink(db: Db, r: RunId, t: TaskId)
    requires t in db.tasks && WaitLinked(db, t)
    ensures t in CancelWaits(db, r).tasks && WaitLinked(CancelWaits(db, r), t)
  {
  }

  lemma CancelledKeeps(db: Db, r: RunId, run: Run)
    requires Coupled(db) && RunsOk(db) && r in db.runs && LogOk(run) && OwnerOk(run)
    ensures Coupled(CancelWaits(SetRun(db, r, run), r)) && RunsOk(CancelWaits(SetRun(db, r, run), r))
  {
    hide LogOk, CancelWaits, OwnerOk;
    var mid := SetRun(db, r, run);
    var db' := CancelWaits(mid, r);
    CancelTables(mid, r);
    forall v | v in db'.waits ensures WaitOk(db', v) {
      assert WaitOk(db, v);
      CancelledWait(mid, r, v);
    }
    forall t | t in db'.tasks ensures WaitLinked(db', t) {
      assert WaitLinked(db, t);
      CancelledLink(mid, r, t);
    }
  }

  lemma CancelTables(db: Db, r: RunId)
    ensures var db' := CancelWaits(db, r);
            && db'.runs == db.runs && db'.waits.Keys == db.waits.Keys && db'.tasks.Keys == db.tasks.Keys
            && forall w :: w in db.waits && db'.waits[w].status.Waiting? ==> db.waits[w].status.Waiting?
  {
  }

  /** A status change keeps the coupling of waits if and only if it is refused, cancels the run, or the run
      has no waiting wait. */
  lemma TransitionKeepsCoupling(db: Db, r: RunId, version: nat, target: RunStatus)
    requires Coupled(db) && RunsOk(db)
    ensures var o := Transition(db, r, version, target);
            && RunsOk(After(db, o))
            && (Coupled(After(db, o)) <==> o.Refused? || target.RunCancelled? || !Waits(db, r))
  {
    hide LogOk, CancelWaits, Waits, OwnerOk;
    if Transition(db, r, version, target).Accepted? {
      RunFacts(db, r);
      MovedIsRight(db.runs[r], target);
      var moved := Moved(db.runs[r], target);
      if target.RunCancelled? {
        CancelledKeeps(db, r, moved);
      } else if Waits(db, r) {
        UncoupledRun(db, r, moved);
        ForAllRunsKept(db, r, moved);
      } else {
        SetRunKeeps(db, r, moved);
      }
    }
  }

  lemma UncoupledRun(db: Db, r: RunId, run: Run)
    requires Coupled(db) && Waits(db, r) && r in db.runs && AllowedTransition(db.runs[r].status, run.status)
    ensures !Coupled(SetRun(db, r, run))
  {
    var w :| w in db.waits && WaitsForRun(db, w, r);
    assert WaitOk(db, w);
    assert !WaitOk(SetRun(db, r, run), w);
  }

  lemma ForAllRunsKept(db: Db, r: RunId, run: Run)
    requires RunsOk(db) && LogOk(run) && OwnerOk(run)
    ensures RunsOk(SetRun(db, r, run))
  {
    hide LogOk, OwnerOk;
  }

  /** The worker of a run may finish it at any time: a run it owns has no waiting wait. */
  lemma FinishKeeps(db: Db, r: RunId, owner: Owner, target: RunStatus)
    requires Coupled(db) && RunsOk(db)
    ensures var db' := After(db, FinishRun(db, r, owner, target)); Coupled(db') && RunsOk(db')
  {
    hide Coupled, RunsOk, LogOk, Transition;
    if r in db.runs && db.runs[r].owner == Some(owner) {
      RunFacts(db, r);
      WaitingRunIsPaused(db, r);
      TransitionKeepsCoupling(db, r, db.runs[r].version, target);
    }
  }
}
