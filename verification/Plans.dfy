/** Plan dependencies, step transitions and the choice of the next step (backend/app/services/plans.py,
    backend/app/services/agent_node_handler.py, backend/app/domain/plans/transitions.py). */
module Plans {
  import opened Common

  /** A dependency as text: not a number, or a number, written canonically or not. */
  datatype Dependency = Malformed | Number(value: int, canonical: bool)

  datatype StepStatus = Pending | Running | Completed | Failed | Skipped | Blocked

  datatype PlanStep = PlanStep(dependencies: seq<Dependency>, status: StepStatus, attempts: nat, version: nat)

  datatype Error =
    | InvalidDependency | DuplicateDependency
    | StepNotFound | VersionConflict | PlanNotActive | DependenciesUnmet(unmet: seq<int>) | InvalidTransition

  // ----- Validation --------------------------------------------------------------------------------------

  /** A dependency names a preceding step; ordinals start at 1. */
  predicate Preceding(d: Dependency, ordinal: nat) {
    d.Number? && d.canonical && 1 <= d.value < ordinal
  }

  predicate Distinct(deps: seq<Dependency>) {
    forall i, j :: 0 <= i < j < |deps| ==> deps[i] != deps[j]
  }

  predicate ValidStep(deps: seq<Dependency>, ordinal: nat) {
    (forall k :: 0 <= k < |deps| ==> Preceding(deps[k], ordinal)) && Distinct(deps)
  }

  predicate Valid(steps: seq<seq<Dependency>>) {
    forall i :: 0 <= i < |steps| ==> ValidStep(steps[i], i + 1)
  }

  /** Everything before dependency k of step i is valid, and that dependency is refused for this reason. */
  predicate FirstError(steps: seq<seq<Dependency>>, i: nat, k: nat, e: Error) {
    && i < |steps| && k < |steps[i]| && Valid(steps[..i]) && ValidStep(steps[i][..k], i + 1)
    && if Preceding(steps[i][k], i + 1) then e.DuplicateDependency? && steps[i][k] in steps[i][..k]
       else e.InvalidDependency?
  }

  /** `_validate_plan_dependencies`: refuses the first step that is not valid, for its first bad dependency. */
  method ValidateDependencies(steps: seq<seq<Dependency>>) returns (error: Option<Error>)
    ensures error.None? <==> Valid(steps)
    ensures error.Some? ==> exists i, k :: FirstError(steps, i, k, error.value)
  {
    for i := 0 to |steps|
      invariant Valid(steps[..i])
    {
      var deps := steps[i];
      var seen: set<int> := {};
      for k := 0 to |deps|
        invariant ValidStep(deps[..k], i + 1)
        invariant forall v :: v in seen <==> exists j :: 0 <= j < k && deps[j].Number? && deps[j].value == v
      {
        var d := deps[k];
        assert deps[..k+1][..k] == deps[..k];
        if d.Malformed? || !d.canonical || !(1 <= d.value < i + 1) {
          assert !ValidStep(deps, i + 1);
          assert FirstError(steps, i, k, InvalidDependency);
          return Some(InvalidDependency);
        }
        if d.value in seen {
          var j :| 0 <= j < k && deps[j].Number? && deps[j].value == d.value;
          assert deps[..k][j] == deps[j] && Preceding(deps[..k][j], i + 1);
          assert deps[j] == d;
          assert !ValidStep(deps, i + 1);
          assert FirstError(steps, i, k, DuplicateDependency);
          return Some(DuplicateDependency);
        }
        assert forall j :: 0 <= j < k ==> deps[..k][j] == deps[j];
        seen := seen + {d.value};
      }
      assert deps[..|deps|] == deps;
      assert steps[..i+1][..i] == steps[..i];
    }
    assert steps[..|steps|] == steps;
    return None;
  }

  // ----- Readiness -----------------------------------------------------------------------------------------

  predicate Done(s: PlanStep) {
    s.status.Completed? || s.status.Skipped?
  }

  /** The step of an ordinal is done. */
  predicate DoneAt(steps: seq<PlanStep>, ordinal: int) {
    1 <= ordinal <= |steps| && Done(steps[ordinal - 1])
  }

  predicate Ready(steps: seq<PlanStep>, i: nat)
    requires i < |steps|
  {
    forall d :: d in steps[i].dependencies ==> d.Number? && DoneAt(steps, d.value)
  }

  /** The unmet ordinals, in the order of the dependencies. */
  function Unmet(steps: seq<PlanStep>, deps: seq<Dependency>): seq<int> {
    if deps == [] then []
    else
      var d := deps[|deps|-1];
      Unmet(steps, deps[..|deps|-1]) + (if d.Number? && !DoneAt(steps, d.value) then [d.value] else [])
  }

  lemma {:induction false} NothingUnmet(steps: seq<PlanStep>, deps: seq<Dependency>)
    requires forall d :: d in deps ==> d.Number?
    ensures Unmet(steps, deps) == [] <==> forall d :: d in deps ==> DoneAt(steps, d.value)
  {
    if deps != [] {
      var front, last := deps[..|deps|-1], deps[|deps|-1];
      NothingUnmet(steps, front);
      assert forall d :: d in deps <==> d in front || d == last;
    }
  }

  /** The dependencies of a stored plan were validated. */
  predicate Accepted(steps: seq<PlanStep>) {
    forall i :: 0 <= i < |steps| ==> ValidStep(steps[i].dependencies, i + 1)
  }

  /** `_validate_dependencies_ready`. */
  method UnmetDependencies(steps: seq<PlanStep>, i: nat) returns (unmet: seq<int>)
    requires Accepted(steps) && i < |steps|
    ensures unmet == Unmet(steps, steps[i].dependencies)
    ensures unmet == [] <==> Ready(steps, i)
  {
    var byOrdinal: map<int, PlanStep> := map[];
    for k := 0 to |steps|
      invariant forall o :: o in byOrdinal <==> 1 <= o <= k
      invariant forall o :: o in byOrdinal ==> byOrdinal[o] == steps[o - 1]
    {
      byOrdinal := byOrdinal[k + 1 := steps[k]];
    }
    var deps := steps[i].dependencies;
    unmet := [];
    for k := 0 to |deps|
      invariant unmet == Unmet(steps, deps[..k])
    {
      assert deps[..k+1][..k] == deps[..k];
      assert Preceding(deps[k], i + 1);
      var o := deps[k].value;
      if o !in byOrdinal || !(byOrdinal[o].status.Completed? || byOrdinal[o].status.Skipped?) {
        unmet := unmet + [o];
      }
    }
    assert deps[..|deps|] == deps;
    NumbersOnly(steps, i);
    NothingUnmet(steps, deps);
  }

  lemma NumbersOnly(steps: seq<PlanStep>, i: nat)
    requires Accepted(steps) && i < |steps|
    ensures forall d :: d in steps[i].dependencies ==> d.Number? && 1 <= d.value <= i
  {
    forall d | d in steps[i].dependencies ensures d.Number? && 1 <= d.value <= i {
      var k :| 0 <= k < |steps[i].dependencies| && steps[i].dependencies[k] == d;
      assert Preceding(steps[i].dependencies[k], i + 1);
    }
  }

  lemma ReadyByIndex(steps: seq<PlanStep>, i: nat)
    requires Accepted(steps) && i < |steps|
    ensures var deps := steps[i].dependencies;
            && (forall k :: 0 <= k < |deps| ==> deps[k].Number?)
            && (Ready(steps, i) <==> forall k :: 0 <= k < |deps| ==> DoneAt(steps, deps[k].value))
  {
    NumbersOnly(steps, i);
    var deps := steps[i].dependencies;
    assert forall k :: 0 <= k < |deps| ==> deps[k] in deps;
  }

  // ----- Transitions -----------------------------------------------------------------------------------------

  predicate Allowed(current: StepStatus, target: StepStatus) {
    match current
    case Pending => target.Running? || target.Skipped? || target.Blocked?
    case Running => target.Completed? || target.Failed? || target.Blocked?
    case Failed => target.Pending? || target.Skipped?
    case Blocked => target.Pending? || target.Skipped?
    case _ => false
  }

  datatype Plan = Plan(active: bool, steps: seq<PlanStep>)

  datatype Outcome = Moved(plan: Plan) | Refused(error: Error)

  function Transition(plan: Plan, i: nat, target: StepStatus, expectedVersion: nat): Outcome {
    if i >= |plan.steps| then Refused(StepNotFound)
    else
      var s := plan.steps[i];
      if s.version != expectedVersion then Refused(VersionConflict)
      else if !plan.active then Refused(PlanNotActive)
      else if target.Running? && Unmet(plan.steps, s.dependencies) != []
      then Refused(DependenciesUnmet(Unmet(plan.steps, s.dependencies)))
      else if !Allowed(s.status, target) then Refused(InvalidTransition)
      else
        var moved := plan.steps[i := s.(status := target, version := s.version + 1,
                                        attempts := s.attempts + if target.Running? then 1 else 0)];
        Moved(Plan(!Finished(moved), moved))
  }

  /** The status changes a step allows. */
  const STEP_TRANSITIONS: set<(StepStatus, StepStatus)> := {
    (Pending, Running), (Pending, Skipped), (Pending, Blocked),
    (Running, Completed), (Running, Failed), (Running, Blocked),
    (Failed, Pending), (Failed, Skipped), (Blocked, Pending), (Blocked, Skipped)}

  /** One step has moved: a start counts as an attempt, and the plan stays active until every step is done. */
  predicate StepMoved(plan: Plan, plan': Plan, i: nat, target: StepStatus) {
    && i < |plan.steps| && |plan'.steps| == |plan.steps|
    && (forall k :: 0 <= k < |plan.steps| && k != i ==> plan'.steps[k] == plan.steps[k])
    && (plan'.active <==> exists k :: 0 <= k < |plan'.steps| && !Done(plan'.steps[k]))
    && var s, s' := plan.steps[i], plan'.steps[i];
       && s'.status == target && s'.version == s.version + 1 && s'.dependencies == s.dependencies
       && s'.attempts == s.attempts + (if target.Running? then 1 else 0)
  }

  /** A transition is accepted exactly on an active plan, for the step's version, along the table, and to running only
      when every dependency is done. */
  lemma TransitionMeans(plan: Plan, i: nat, target: StepStatus, expectedVersion: nat)
    requires Accepted(plan.steps)
    ensures var o := Transition(plan, i, target, expectedVersion);
            && (o.Moved? <==>
                  && i < |plan.steps| && plan.steps[i].version == expectedVersion && plan.active
                  && (plan.steps[i].status, target) in STEP_TRANSITIONS
                  && (target.Running? ==>
                        forall d :: d in plan.steps[i].dependencies ==>
                          d.Number? && 1 <= d.value <= |plan.steps|
                          && (plan.steps[d.value - 1].status.Completed? || plan.steps[d.value - 1].status.Skipped?)))
            && (o.Moved? ==> StepMoved(plan, o.plan, i, target))
  {
    if i < |plan.steps| {
      NumbersOnly(plan.steps, i);
      NothingUnmet(plan.steps, plan.steps[i].dependencies);
    }
  }

  /** The accepted transitions of a sequence of requests. */
  datatype Request = Request(i: nat, target: StepStatus, version: nat)

  function After(plan: Plan, requests: seq<Request>): Plan {
    if requests == [] then plan else
      var before := After(plan, requests[..|requests|-1]);
      var last := requests[|requests|-1];
      var o := Transition(before, last.i, last.target, last.version);
      if o.Moved? then o.plan else before
  }

  function Starts(plan: Plan, requests: seq<Request>, i: nat): nat {
    if requests == [] then 0 else
      var last := requests[|requests|-1];
      Starts(plan, requests[..|requests|-1], i)
      + if last.i == i && last.target.Running?
           && Transition(After(plan, requests[..|requests|-1]), i, Running, last.version).Moved? then 1 else 0
  }

  /** Over any sequence of requests the attempts of a step count its starts. */
  lemma {:induction false} AttemptsAreStarts(plan: Plan, requests: seq<Request>, i: nat)
    requires i < |plan.steps|
    ensures var plan' := After(plan, requests);
            && |plan'.steps| == |plan.steps|
            && plan'.steps[i].attempts == plan.steps[i].attempts + Starts(plan, requests, i)
  {
    if requests != [] { AttemptsAreStarts(plan, requests[..|requests|-1], i); }
  }

  predicate Finished(steps: seq<PlanStep>) {
    forall k :: 0 <= k < |steps| ==> Done(steps[k])
  }

  class PlanRecord {
    var active: bool
    var steps: seq<PlanStep>

    function State(): Plan
      reads this
    {
      Plan(active, steps)
    }

    /** `create`, after the dependencies were accepted. */
    constructor (dependencies: seq<seq<Dependency>>)
      requires Valid(dependencies)
      ensures active && Accepted(steps) && |steps| == |dependencies|
      ensures forall i :: 0 <= i < |steps| ==> steps[i] == PlanStep(dependencies[i], Pending, 0, 1)
    {
      active := true;
      steps := seq(|dependencies|, i requires 0 <= i < |dependencies| => PlanStep(dependencies[i], Pending, 0, 1));
    }

    /** `transition_step`. */
    method TransitionStep(i: nat, target: StepStatus, expectedVersion: nat) returns (error: Option<Error>)
      requires Accepted(steps)
      modifies this
      ensures var o := Transition(old(State()), i, target, expectedVersion);
              && error == (if o.Refused? then Some(o.error) else None)
              && State() == (if o.Refused? then old(State()) else o.plan)
      ensures error.None? ==> StepMoved(old(State()), State(), i, target)
    {
      hide StepMoved;
      TransitionMeans(State(), i, target, expectedVersion);
      if i >= |steps| { return Some(StepNotFound); }
      var s := steps[i];
      if s.version != expectedVersion { return Some(VersionConflict); }
      if !active { return Some(PlanNotActive); }
      if target.Running? {
        var unmet := UnmetDependencies(steps, i);
        if unmet != [] { return Some(DependenciesUnmet(unmet)); }
      }
      if !Allowed(s.status, target) { return Some(InvalidTransition); }
      s := s.(status := target);
      if target.Running? { s := s.(attempts := s.attempts + 1); }
      var moved := steps[i := s.(version := s.version + 1)];
      steps := moved;
      var done := AllDone(moved);
      if done { active := false; }
      return None;
    }

    /** `_select_next_step`: the first pending step whose dependencies are all completed. */
    method SelectNextStep() returns (chosen: Option<nat>)
      requires Accepted(steps)
      modifies this
      ensures chosen == (if old(active) then Runnable(old(steps), 0) else None)
      ensures chosen.None? ==> State() == old(State())
      ensures chosen.Some? ==>
                && chosen.value < |old(steps)|
                && Transition(old(State()), chosen.value, Running, old(steps)[chosen.value].version) == Moved(State())
    {
      if !active { return None; }
      chosen := FirstRunnable(steps);
      if chosen.Some? {
        var i := chosen.value;
        RunnableIsFirst(steps, 0);
        SelectedIsAccepted(State(), i);
        var error := TransitionStep(i, Running, steps[i].version);
      }
    }
  }

  method AllDone(steps: seq<PlanStep>) returns (done: bool)
    ensures done <==> Finished(steps)
  {
    done := true;
    for k := 0 to |steps|
      invariant done <==> forall j :: 0 <= j < k ==> Done(steps[j])
    {
      done := done && Done(steps[k]);
    }
  }

  method FirstRunnable(steps: seq<PlanStep>) returns (chosen: Option<nat>)
    requires Accepted(steps)
    ensures chosen == Runnable(steps, 0)
  {
    var completed: set<int> := {};
    for k := 0 to |steps|
      invariant forall o :: o in completed <==> 1 <= o <= k && Done(steps[o - 1])
    {
      if Done(steps[k]) { completed := completed + {k + 1}; }
    }
    for i := 0 to |steps|
      invariant Runnable(steps, 0) == Runnable(steps, i)
    {
      ReadyByIndex(steps, i);
      var deps := steps[i].dependencies;
      if steps[i].status.Pending? && forall k :: 0 <= k < |deps| ==> deps[k].value in completed { return Some(i); }
    }
    return None;
  }

  /** The first runnable step from position i on. */
  function Runnable(steps: seq<PlanStep>, i: nat): Option<nat>
    decreases |steps| - i
  {
    if i >= |steps| then None
    else if steps[i].status.Pending? && Ready(steps, i) then Some(i)
    else Runnable(steps, i + 1)
  }

  // ----- Progress ------------------------------------------------------------------------------------------------

  lemma {:induction false} RunnableIsFirst(steps: seq<PlanStep>, i: nat)
    ensures match Runnable(steps, i)
            case None => forall k :: i <= k < |steps| ==> !(steps[k].status.Pending? && Ready(steps, k))
            case Some(j) =>
              && i <= j < |steps| && steps[j].status.Pending? && Ready(steps, j)
              && forall k :: i <= k < j ==> !(steps[k].status.Pending? && Ready(steps, k))
    decreases |steps| - i
  {
    if i < |steps| && !(steps[i].status.Pending? && Ready(steps, i)) { RunnableIsFirst(steps, i + 1); }
  }

  /** Every step the selector chooses passes the dependency check and the transition to running. */
  lemma SelectedIsAccepted(plan: Plan, i: nat)
    requires Accepted(plan.steps) && plan.active && i < |plan.steps|
    requires plan.steps[i].status.Pending? && Ready(plan.steps, i)
    ensures Transition(plan, i, Running, plan.steps[i].version).Moved?
  {
    NumbersOnly(plan.steps, i);
    NothingUnmet(plan.steps, plan.steps[i].dependencies);
  }

  /** Step i waits, directly or through other steps, for step j. */
  ghost predicate WaitsFor(steps: seq<PlanStep>, i: nat, j: nat)
    requires Accepted(steps) && i < |steps| && j < |steps|
    decreases i
  {
    NumbersOnly(steps, i);
    exists d :: d in steps[i].dependencies && (d.value - 1 == j || WaitsFor(steps, d.value - 1, j))
  }

  predicate Stuck(s: PlanStep) {
    s.status.Running? || s.status.Failed? || s.status.Blocked?
  }

  /** When nothing is runnable, every pending step waits for one that is running, failed or blocked. */
  lemma {:induction false} PendingWaits(steps: seq<PlanStep>, i: nat) returns (j: nat)
    requires Accepted(steps) && Runnable(steps, 0).None? && i < |steps| && steps[i].status.Pending?
    ensures j < i && Stuck(steps[j]) && WaitsFor(steps, i, j)
    decreases i
  {
    RunnableIsFirst(steps, 0);
    NumbersOnly(steps, i);
    assert !Ready(steps, i);
    var d :| d in steps[i].dependencies && !DoneAt(steps, d.value);
    var k := d.value - 1;
    if steps[k].status.Pending? {
      j := PendingWaits(steps, k);
      assert WaitsFor(steps, k, j);
    } else {
      j := k;
    }
  }

  /** The selector reports no runnable step of an accepted plan only if no step is pending or some step is
      running, failed or blocked. */
  lemma NoRunnableStep(steps: seq<PlanStep>)
    requires Accepted(steps) && Runnable(steps, 0).None?
    ensures (forall i :: 0 <= i < |steps| ==> !steps[i].status.Pending?)
            || exists j :: 0 <= j < |steps| && Stuck(steps[j])
  {
    if i :| 0 <= i < |steps| && steps[i].status.Pending? {
      var j := PendingWaits(steps, i);
    }
  }

  predicate Started(s: PlanStep) {
    s.status.Running? || s.status.Completed? || s.status.Failed?
  }

  /** A step that was started rests on done dependencies. */
  predicate WellFounded(steps: seq<PlanStep>) {
    Accepted(steps) && forall i :: 0 <= i < |steps| && Started(steps[i]) ==> Ready(steps, i)
  }

  /** Whatever transitions are asked for, no step is ever running, completed or failed before its dependencies are
      done, and a plan is active exactly while some step is not done. */
  lemma TransitionKeepsOrder(plan: Plan, i: nat, target: StepStatus, expectedVersion: nat)
    requires WellFounded(plan.steps)
    ensures var o := Transition(plan, i, target, expectedVersion);
            o.Moved? ==>
              && WellFounded(o.plan.steps)
              && (o.plan.active <==> !Finished(o.plan.steps))
  {
    var o := Transition(plan, i, target, expectedVersion);
    if o.Moved? {
      var steps, steps' := plan.steps, o.plan.steps;
      forall k | 0 <= k < |steps'| ensures ValidStep(steps'[k].dependencies, k + 1) {
        assert ValidStep(steps[k].dependencies, k + 1);
      }
      forall v | DoneAt(steps, v) ensures DoneAt(steps', v) {
      }
      NumbersOnly(steps, i);
      NothingUnmet(steps, steps[i].dependencies);
      forall k | 0 <= k < |steps'| && Started(steps'[k]) ensures Ready(steps', k) {
        assert Ready(steps, k);
      }
    }
  }
}
