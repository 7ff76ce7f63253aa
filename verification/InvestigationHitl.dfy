/** Waits of a run for a human decision (backend/app/services/investigation_hitl.py). */
module InvestigationHitl {
  import opened Common
  import opened Records

  /** A run stops and gives up its runtime lease. */
  function Paused(run: Run): Run {
    run.(status := RunPaused, owner := None, lease := None, version := run.version + 1)
  }

  /** A run whose wait is over is queued again, if it is still paused. */
  function Requeued(run: Run): Run {
    if run.status.RunPaused? then run.(status := RunQueued, owner := None, lease := None, version := run.version + 1)
    else run
  }

  /** Resolve one waiting wait. */
  function ResolveWait(db: Db, w: WaitKey): Db {
    if w !in db.waits || w.run !in db.runs then db else
      db.(waits := db.waits[w := db.waits[w].(status := Resolved)],
          runs := db.runs[w.run := Requeued(db.runs[w.run])])
  }

  predicate WaitsFor(db: Db, w: WaitKey) {
    w in db.waits && db.waits[w].status.Waiting?
  }

  /** `run` is the run of the wait `get_waiting_hitl_for_subject` found, None if it found none. */
  function ResolveSubject(db: Db, subject: Subject, run: Option<RunId>): Outcome {
    match run
    case None =>
      if exists w :: w in db.waits && w.HitlWait? && w.subject == subject && db.waits[w].status.Waiting?
      then Refused(NotOffered) else Accepted(db)
    case Some(r) =>
      if !WaitsFor(db, HitlWait(r, subject)) then Refused(NotOffered)
      else if r !in db.runs then Refused(RunNotFound)
      else Accepted(ResolveWait(db, HitlWait(r, subject)))
  }

  /** `pending` is the answer of `_validate_pending_subject`. */
  function StartWait(db: Db, r: RunId, checkpoint: ExecutionId, subject: Subject, expectedVersion: nat, pending: bool)
    : Outcome
  {
    var w := HitlWait(r, subject);
    if w in db.waits then
      if db.waits[w].checkpoint != checkpoint then Refused(HitlWaitConflict) else Replayed(db)
    else if r !in db.runs then Refused(RunNotFound)
    else if db.runs[r].version != expectedVersion then Refused(RunVersionConflict)
    else if !db.runs[r].status.RunRunning? then Refused(RunNotRunning)
    else if !exists i :: 0 <= i < |db.runs[r].log| && db.runs[r].log[i].id == checkpoint
    then Refused(CheckpointNotFound)
    else if !pending then Refused(HitlSubjectNotPending)
    else Accepted(db.(waits := db.waits[w := Wait(Waiting, checkpoint, None)],
                      runs := db.runs[r := Paused(db.runs[r])]))
  }
}
