/** The tables as mutable state, and the services' transactions on them. */
module Tables {
  import opened Common
  import opened Records

  /** What a request is answered. */
  datatype Reply = Done | Nothing | Repeated | Error(code: Code)

  function Answer(o: Outcome): Reply {
    match o
    case Accepted(_) => Done
    case Idle(_) => Nothing
    case Replayed(_) => Repeated
    case Refused(code) => Error(code)
  }

  class Database {
    var actions: map<ActionId, Action>
    var executions: map<ActionId, Execution<ActionStatus>>
    var locks: map<ResourceId, Lock>
    var grants: map<ResourceId, seq<ActionId>>
    var verifications: map<ActionId, Verification>
    var compensations: map<ActionId, Compensation>
    var compExecutions: map<ActionId, Execution<CompensationStatus>>
    var tasks: map<TaskId, Task>
    var runs: map<RunId, Run>
    var waits: map<WaitKey, Wait>

    constructor ()
      ensures State() == EMPTY
    {
      actions, executions, locks, grants := map[], map[], map[], map[];
      verifications, compensations, compExecutions := map[], map[], map[];
      tasks, runs, waits := map[], map[], map[];
    }

    function State(): Db
      reads this
    {
      Db(actions, executions, locks, grants, verifications, compensations, compExecutions, tasks, runs, waits)
    }

    /** Undo every change of a failed request. */
    method Rollback(before: Db)
      modifies this
      ensures State() == before
    {
      actions, executions, locks, grants := before.actions, before.executions, before.locks, before.grants;
      verifications, compensations := before.verifications, before.compensations;
      compExecutions, tasks, runs, waits := before.compExecutions, before.tasks, before.runs, before.waits;
    }
  }
}
