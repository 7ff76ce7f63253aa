/** Why resource exclusion needs lock leases that cover execution leases. */
module LeaseMargins {
  import opened Common
  import opened Records
  import opened ActionInvariants
  import opened ActionPreservation
  import opened System
  import opened Exclusion
  import ActionSteps
  import ActionDispatcher
  import ResourceLocks

  const PLAIN := Action(0, 0, None, 0, Ready, 1)

  /** Two actions on one resource; the first is dispatched and claimed, and the second is dispatched when the
      first one's lock has just expired. */
  function Race(cfg: Settings): seq<Step> {
    [OnAction(ActionSteps.CreateAction(0, PLAIN)),
     OnAction(ActionSteps.CreateAction(1, PLAIN)),
     OnAction(ActionSteps.Dispatch(0, true, Some(0), 0)),
     OnAction(ActionSteps.Claim(0, Some(0), 0)),
     OnAction(ActionSteps.Dispatch(1, true, Some(0), cfg.lockLease))]
  }

  /** The tables once the first action runs. */
  function FirstRuns(cfg: Settings): Db {
    EMPTY.(
      actions := map[0 := PLAIN.(status := Running, version := 3), 1 := PLAIN],
      executions := map[0 := Execution(0, Running, 1, 1, Some(cfg.executionLease), None)],
      locks := map[0 := Lock(0, 1, cfg.lockLease, false, false)],
      grants := map[0 := [0]])
  }

  function BothReady(): Db {
    EMPTY.(actions := map[0 := PLAIN, 1 := PLAIN])
  }

  function FirstDispatched(cfg: Settings): Db {
    EMPTY.(
      actions := map[0 := PLAIN.(status := Dispatching, version := 2), 1 := PLAIN],
      executions := map[0 := Execution(0, Dispatching, 1, 1, None, None)],
      locks := map[0 := Lock(0, 1, cfg.lockLease, false, false)],
      grants := map[0 := [0]])
  }

  lemma NothingLapsed(db: Db, now: Time)
    requires ActionDispatcher.ExpiredRunning(db, now) == {}
    ensures ActionDispatcher.RecoverExpired(db, now) == db
  {
    var same := ActionDispatcher.RecoverExpired(db, now);
    assert same.executions == db.executions && same.actions == db.actions && same.locks == db.locks;
  }

  lemma Starts(cfg: Settings)
    ensures State(cfg, Race(cfg)[..2]) == BothReady()
  {
    assert Race(cfg)[..2][..1] == Race(cfg)[..1] && Race(cfg)[..1][..0] == [];
    assert State(cfg, Race(cfg)[..1]) == EMPTY.(actions := map[0 := PLAIN]);
  }

  lemma Dispatches(cfg: Settings)
    ensures Next(cfg, BothReady(), Race(cfg)[2]) == FirstDispatched(cfg)
  {
    hide ActionDispatcher.RecoverExpired;
    NothingLapsed(BothReady(), 0);
    var db, db' := BothReady(), FirstDispatched(cfg);
    var acquired := ResourceLocks.Acquire(cfg, db, 0, true, 0).db;
    assert [] + [0] == [0];
    assert acquired.locks == db'.locks && acquired.grants == db'.grants;
    var dispatched := ActionDispatcher.Dispatched(acquired, 0, 0);
    assert dispatched.actions == db'.actions;
    assert dispatched.executions == db'.executions;
  }

  lemma Claims(cfg: Settings)
    ensures Next(cfg, FirstDispatched(cfg), Race(cfg)[3]) == FirstRuns(cfg)
  {
    hide ActionDispatcher.RecoverExpired;
    NothingLapsed(FirstDispatched(cfg), 0);
  }

  lemma TakesOverAnyway(cfg: Settings)
    requires !LeasesCover(cfg)
    ensures !AllHold(Next(cfg, FirstRuns(cfg), Race(cfg)[4]))
  {
    NothingLapsed(FirstRuns(cfg), cfg.lockLease);
    var db' := Next(cfg, FirstRuns(cfg), Race(cfg)[4]);
    assert db'.actions[0].status.Running? && db'.locks[0].owner == 1;
    assert !Holds(0, CaseOf(db', 0));
  }

  lemma FirstRunsAfterAll(cfg: Settings)
    ensures State(cfg, Race(cfg)[..4]) == FirstRuns(cfg)
  {
    hide Next, State, FirstRuns, FirstDispatched, BothReady;
    Starts(cfg);
    Dispatches(cfg);
    Claims(cfg);
    AtNext(cfg, Race(cfg), 2);
    AtNext(cfg, Race(cfg), 3);
  }

  lemma RaceBreaksExclusion(cfg: Settings)
    requires !LeasesCover(cfg)
    ensures !AllHold(State(cfg, Race(cfg)))
  {
    hide Next, AllHold, LeasesCover, State, FirstRuns;
    FirstRunsAfterAll(cfg);
    TakesOverAnyway(cfg);
    AtNext(cfg, Race(cfg), 4);
    assert Race(cfg)[..5] == Race(cfg);
  }

  ghost predicate DispatchOnly(steps: seq<Step>) {
    forall k :: 0 <= k < |steps| ==> !(steps[k].OnAction? && steps[k].action.AcquireLock?)
  }

  /** Locks taken only through dispatch exclude in every run if and only if the lock lease is at least the execution
      lease. */
  lemma ExclusionNeedsTheMargin(cfg: Settings)
    ensures (forall steps :: DispatchOnly(steps) ==> AllHold(State(cfg, steps))) <==> LeasesCover(cfg)
  {
    hide AllHold, State;
    if LeasesCover(cfg) {
      forall steps | DispatchOnly(steps) ensures AllHold(State(cfg, steps)) {
        DispatchOnlyExcludes(cfg, steps);
      }
    } else {
      RaceBreaksExclusion(cfg);
      assert DispatchOnly(Race(cfg));
    }
  }
}
