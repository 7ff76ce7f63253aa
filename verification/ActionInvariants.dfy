/** What every step keeps true of an action, its execution, its lock, its verification with the task, and
    its compensation. An action's rows are gathered in a `Case`, so that a step's effect on one action is a
    fact about two plain values. */
module ActionInvariants {
  import opened Common
  import opened Records
  import opened ResourceLocks
  import opened RunnerTasks

  datatype Case = Case(
    action: Action,
    execution: Option<Execution<ActionStatus>>,
    lock: Option<Lock>,
    grants: seq<ActionId>,
    verification: Option<Verification>,
    task: Option<Task>,
    compensation: Option<Compensation>,
    compExecution: Option<Execution<CompensationStatus>>)

  function Lookup<K, V>(m: map<K, V>, k: K): Option<V> {
    if k in m then Some(m[k]) else None
  }

  function CaseOf(db: Db, a: ActionId): Case
    requires a in db.actions
  {
    var r := db.actions[a].resource;
    Case(db.actions[a], Lookup(db.executions, a), Lookup(db.locks, r),
         if r in db.grants then db.grants[r] else [],
         Lookup(db.verifications, a),
         if a in db.verifications then Lookup(db.tasks, db.verifications[a].task) else None,
         Lookup(db.compensations, a), Lookup(db.compExecutions, a))
  }

  // ----- The invariant of one case ------------------------------------------------------------------

  /** The status an execution shows while its action shows `s`. */
  function ExecutionStatus(s: ActionStatus): ActionStatus {
    match s
    case Verifying => Applied
    case Compensating => VerificationFailed
    case Compensated => VerificationFailed
    case Escalated => VerificationFailed
    case _ => s
  }

  /** Statuses whose action has failed verification. */
  predicate FailedVerification(s: ActionStatus) {
    s.VerificationFailed? || s.Compensating? || s.Compensated? || s.Escalated?
  }

  /** The statuses in which the resource's state is still open and its lock frozen. */
  predicate Frozen(s: ActionStatus) {
    s.Verifying? || s.VerificationFailed? || s.Compensating? || s.Escalated?
  }

  /** The action owns the unreleased lock of its resource, with its execution's token. */
  predicate Holds(a: ActionId, c: Case) {
    && c.lock.Some? && c.execution.Some?
    && c.lock.value.owner == a && !c.lock.value.released && c.lock.value.token == c.execution.value.token
  }

  predicate ExecutionOk(a: ActionId, c: Case) {
    && (c.execution.None? <==> c.action.status.Ready? || c.action.status.Cancelled?)
    && !c.action.status.Applied?
    && (c.execution.Some? ==>
          var e := c.execution.value;
          && e.status == ExecutionStatus(c.action.status)
          && (e.lease.Some? <==> e.status.Running?)
          && (e.completion.Some? ==> !e.status.Dispatching? && !e.status.Running? && !e.status.Unknown?)
          && c.lock.Some? && 1 <= e.token <= |c.grants| && c.grants[e.token - 1] == a
          && (c.lock.value.owner == a ==> c.lock.value.token == e.token))
  }

  predicate LockStateOk(a: ActionId, c: Case) {
    && (c.lock.Some? ==> c.lock.value.token == |c.grants|)
    && (c.lock.Some? && c.lock.value.owner == a && c.lock.value.frozen ==>
          !c.lock.value.released && (Frozen(c.action.status) || c.action.status.Unknown?))
    && (Frozen(c.action.status) ==> Holds(a, c) && c.lock.value.frozen)
  }

  predicate VerificationOk(a: ActionId, c: Case) {
    && (c.action.status.Verifying? || FailedVerification(c.action.status) ==> c.verification.Some?)
    && (c.verification.Some? ==>
          && c.task.Some? && c.task.value.verification == Some(a) && c.task.value.planStep.None?
          && c.task.value.wait.None?
          && match c.verification.value.status
             case Passed => c.action.status.Succeeded? && c.task.value.status.TaskSucceeded?
             case NotPassed => FailedVerification(c.action.status) && c.task.value.status.TaskFailed?
             case Queued => c.action.status.Verifying? && c.task.value.status.TaskQueued?
             case Checking => c.action.status.Verifying? && Live(c.task.value))
  }

  predicate CompensationOk(c: Case) {
    && (c.action.status.Compensating? || c.action.status.Compensated? || c.action.status.Escalated?
        ==> c.compensation.Some?)
    && (c.compExecution.Some? ==> c.compensation.Some?)
    && (c.compensation.Some? ==>
          match c.compensation.value.status
          case CompSucceeded => c.action.status.Compensated? && c.compExecution.Some?
          case CompEscalated => c.action.status.Escalated?
          case CompDispatching => c.action.status.Compensating? && c.compExecution.Some?
          case CompRunning => c.action.status.Compensating? && c.compExecution.Some?
          case CompUnknown => c.action.status.Compensating? && c.compExecution.Some?
          case CompFailed => false
          case _ => c.action.status.VerificationFailed? && c.compExecution.None?)
    && (c.compExecution.Some? ==>
          var e, s := c.compExecution.value, c.compensation.value.status;
          && c.execution.Some? && e.token == c.execution.value.token
          && (e.status.CompDispatching? <==> s.CompDispatching?)
          && (e.status.CompRunning? <==> s.CompRunning?)
          && (e.lease.Some? <==> e.status.CompRunning?)
          && (e.completion.Some? ==> e.status.CompSucceeded? || e.status.CompFailed?))
  }

  predicate CaseOk(a: ActionId, c: Case) {
    ExecutionOk(a, c) && LockStateOk(a, c) && VerificationOk(a, c) && CompensationOk(c)
  }

  // ----- The invariant of the tables ------------------------------------------------------------------

  /** A lock is on its owner's resource, and the last acquisition event is its owner's. */
  predicate LockOk(db: Db, r: ResourceId)
    requires r in db.locks
  {
    var lock := db.locks[r];
    && lock.owner in db.actions && db.actions[lock.owner].resource == r
    && r in db.grants && |db.grants[r]| > 0 && lock.token == |db.grants[r]|
    && db.grants[r][lock.token - 1] == lock.owner
  }

  /** Bounds of the task queue. */
  predicate TaskOk(task: Task) {
    && task.attempt <= task.maxAttempts
    && (task.status.TaskQueued? ==> task.attempt < task.maxAttempts)
    && (task.status.TaskLeased? ==> 1 <= task.attempt && task.lease.Some? && task.runner.Some?)
  }

  /** A verification's task is the task that carries it. */
  predicate TaskLinked(db: Db, t: TaskId)
    requires t in db.tasks
  {
    var v := db.tasks[t].verification;
    v.Some? ==> v.value in db.verifications && db.verifications[v.value].task == t
  }

  ghost predicate Inv(db: Db) {
    && db.executions.Keys <= db.actions.Keys && db.verifications.Keys <= db.actions.Keys
    && db.compensations.Keys <= db.actions.Keys && db.compExecutions.Keys <= db.actions.Keys
    && db.grants.Keys == db.locks.Keys
    && (forall a :: a in db.actions ==> CaseOk(a, CaseOf(db, a)))
    && (forall r :: r in db.locks ==> LockOk(db, r))
    && (forall t :: t in db.tasks ==> TaskOk(db.tasks[t]) && TaskLinked(db, t))
  }

  // ----- What may change ----------------------------------------------------------------------------------

  /** The life cycle of an action: the statuses it can still reach. */
  predicate Reaches(s: ActionStatus, t: ActionStatus) {
    s == t || match s
      case Ready => true
      case Dispatching => !t.Ready? && !t.Cancelled?
      case Running => !t.Ready? && !t.Cancelled? && !t.Dispatching?
      case Unknown => t.Succeeded? || t.Failed?
      case Verifying => t.Succeeded? || FailedVerification(t)
      case VerificationFailed => FailedVerification(t)
      case Compensating => t.Compensated? || t.Escalated?
      case _ => false
  }

  /** An execution keeps its runner and its tokens, and its completion once it has one. */
  predicate ExecutionGrows<S>(e: Option<Execution<S>>, e': Option<Execution<S>>) {
    e.Some? ==>
      && e'.Some? && e'.value.runner == e.value.runner
      && e'.value.executionToken == e.value.executionToken && e'.value.token == e.value.token
      && (e.value.completion.Some? ==> e'.value.completion == e.value.completion)
  }

  /** A version never falls, and rises whenever the status changes. */
  predicate VersionGrows<S(==)>(status: S, version: nat, status': S, version': nat) {
    version <= version' && (status != status' ==> version < version')
  }

  predicate CompensationGrows(c: Option<Compensation>, c': Option<Compensation>) {
    c.Some? ==>
      && c'.Some? && c'.value == c.value.(status := c'.value.status, version := c'.value.version)
      && VersionGrows(c.value.status, c.value.version, c'.value.status, c'.value.version)
  }

  /** What no step undoes: an action only moves on in its life cycle, and no row disappears. */
  predicate CaseGrows(c: Case, c': Case) {
    && c'.action == c.action.(status := c'.action.status, version := c'.action.version)
    && VersionGrows(c.action.status, c.action.version, c'.action.status, c'.action.version)
    && Reaches(c.action.status, c'.action.status)
    && ExecutionGrows(c.execution, c'.execution) && ExecutionGrows(c.compExecution, c'.compExecution)
    && CompensationGrows(c.compensation, c'.compensation)
    && (c.verification.Some? ==> c'.verification.Some? && c'.verification.value.task == c.verification.value.task)
  }

  /** A lock changes hands only with the next fencing token; a released token is never held again. */
  predicate LockMoves(lock: Option<Lock>, grants: seq<ActionId>, lock': Lock, grants': seq<ActionId>) {
    if grants' == grants then
      && lock.Some? && lock'.owner == lock.value.owner && lock'.token == lock.value.token
      && (lock.value.released ==> lock'.released)
    else grants' == grants + [lock'.owner]
  }

  // ----- Framing ------------------------------------------------------------------------------------------

  /** Two tables that differ at most in one row. */
  ghost predicate Except<K, V>(m: map<K, V>, m': map<K, V>, k: K) {
    m' == m || (k in m' && m' == m[k := m'[k]])
  }

  /** Only rows of action `a`, its verification task and its resource's lock may differ. */
  ghost predicate OnlyCase(db: Db, db': Db, a: ActionId)
    requires a in db.actions && a in db'.actions
  {
    var r := db.actions[a].resource;
    && Except(db.actions, db'.actions, a) && db'.actions[a].resource == r
    && Except(db.executions, db'.executions, a)
    && Except(db.verifications, db'.verifications, a)
    && Except(db.compensations, db'.compensations, a)
    && Except(db.compExecutions, db'.compExecutions, a)
    && Except(db.locks, db'.locks, r) && Except(db.grants, db'.grants, r)
    && (r in db.locks ==> r in db'.locks)
    && (forall t ::
          t in db.tasks && db.tasks[t].verification != Some(a) ==> t in db'.tasks && db'.tasks[t] == db.tasks[t])
    && (forall t ::
          t in db'.tasks && (t !in db.tasks || db'.tasks[t] != db.tasks[t]) ==> db'.tasks[t].verification == Some(a))
  }

  /** The lock of a's resource is unchanged, or a has it now and nobody else's frozen lock was taken. */
  ghost predicate LockMovesTo(db: Db, db': Db, a: ActionId)
    requires a in db.actions
  {
    var r := db.actions[a].resource;
    if r !in db.locks then r !in db'.locks || (db'.locks[r].owner == a && r !in db.grants)
    else
      && r in db'.locks && r in db.grants && r in db'.grants
      && db.grants[r] <= db'.grants[r]
      && (db'.locks[r] == db.locks[r]
          || (db'.locks[r].owner == a && (db.locks[r].owner == a || !db.locks[r].frozen)))
  }

  lemma ForeignCase(a: ActionId, b: ActionId, c: Case, c': Case)
    requires CaseOk(b, c) && b != a
    requires c' == c.(lock := c'.lock, grants := c'.grants)
    requires c.grants <= c'.grants && (c.lock.Some? ==> c'.lock.Some?)
    requires c'.lock.Some? ==> c'.lock.value.token == |c'.grants|
    requires c'.lock == c.lock
             || (c'.lock.Some? && c'.lock.value.owner == a
               && (c.lock.Some? ==> c.lock.value.owner == a || !c.lock.value.frozen))
    ensures CaseOk(b, c')
  {
  }

  lemma TableFacts(db: Db)
    requires Inv(db)
    ensures db.grants.Keys == db.locks.Keys
    ensures db.executions.Keys <= db.actions.Keys && db.verifications.Keys <= db.actions.Keys
    ensures db.compensations.Keys <= db.actions.Keys && db.compExecutions.Keys <= db.actions.Keys
  {
  }

  lemma CaseFacts(db: Db, a: ActionId)
    requires Inv(db) && a in db.actions
    ensures CaseOk(a, CaseOf(db, a)) && db.grants.Keys == db.locks.Keys
    ensures db.actions[a].resource in db.locks ==> LockOk(db, db.actions[a].resource)
  {
  }

  lemma TokenCountsGrants(db: Db, r: ResourceId)
    requires r in db.locks && LockOk(db, r)
    ensures r in db.grants && db.locks[r].token == |db.grants[r]|
  {
  }

  lemma OtherCase(db: Db, db': Db, a: ActionId, b: ActionId)
    requires Inv(db) && a in db.actions && a in db'.actions && b in db'.actions && b != a
    requires OnlyCase(db, db', a) && LockMovesTo(db, db', a)
    requires db'.grants.Keys == db'.locks.Keys
    requires db.actions[a].resource in db'.locks ==> LockOk(db', db.actions[a].resource)
    ensures b in db.actions && db'.actions[b] == db.actions[b]
    ensures CaseOk(b, CaseOf(db', b))
  {
    hide CaseOk, Except, Inv, LockOk;
    SameRow(db.actions, db'.actions, a, b);
    var r, s := db.actions[a].resource, db.actions[b].resource;
    var c, c' := CaseOf(db, b), CaseOf(db', b);
    SameRow(db.executions, db'.executions, a, b);
    SameRow(db.verifications, db'.verifications, a, b);
    SameRow(db.compensations, db'.compensations, a, b);
    SameRow(db.compExecutions, db'.compExecutions, a, b);
    if s != r {
      SameRow(db.locks, db'.locks, r, s);
      SameRow(db.grants, db'.grants, r, s);
    }
    CaseFacts(db, b);
    if s == r && r in db'.locks {
      TokenCountsGrants(db', r);
    }
    if b in db.verifications {
      OtherTask(db, a, b);
    }
    assert c' == c.(lock := c'.lock, grants := c'.grants);
    ForeignCase(a, b, c, c');
  }

  /** To keep the invariant, a step on one action has to keep that action's case right. */
  lemma CaseStep(db: Db, db': Db, a: ActionId)
    requires Inv(db) && a in db.actions && a in db'.actions
    requires OnlyCase(db, db', a) && LockMovesTo(db, db', a)
    requires db'.grants.Keys == db'.locks.Keys
    requires db.actions[a].resource in db'.locks ==> LockOk(db', db.actions[a].resource)
    requires CaseOk(a, CaseOf(db', a))
    requires forall t ::
               t in db'.tasks && db'.tasks[t].verification == Some(a) ==> TaskOk(db'.tasks[t]) && TaskLinked(db', t)
    ensures Inv(db')
  {
    hide CaseOk, CaseOf, LockMovesTo;
    forall b | b in db'.actions
      ensures CaseOk(b, CaseOf(db', b))
    {
      if b != a { OtherCase(db, db', a, b); }
    }
    forall s | s in db'.locks
      ensures LockOk(db', s)
    {
      if s != db.actions[a].resource { OtherLock(db, db', a, s); }
    }
    forall t | t in db'.tasks
      ensures TaskOk(db'.tasks[t]) && TaskLinked(db', t)
    {
      if db'.tasks[t].verification != Some(a) {
        OtherTaskRow(db, db', a, t);
      }
    }
    assert db'.actions.Keys == db.actions.Keys;
    KeysKept(db.executions, db'.executions, a, db.actions.Keys);
    KeysKept(db.verifications, db'.verifications, a, db.actions.Keys);
    KeysKept(db.compensations, db'.compensations, a, db.actions.Keys);
    KeysKept(db.compExecutions, db'.compExecutions, a, db.actions.Keys);
  }

  lemma OtherLock(db: Db, db': Db, a: ActionId, s: ResourceId)
    requires Inv(db) && a in db.actions && a in db'.actions && OnlyCase(db, db', a)
    requires s in db'.locks && s != db.actions[a].resource
    ensures LockOk(db', s)
  {
    var r := db.actions[a].resource;
    SameRow(db.locks, db'.locks, r, s);
    SameRow(db.grants, db'.grants, r, s);
    assert LockOk(db, s);
    SameRow(db.actions, db'.actions, a, db.locks[s].owner);
  }

  lemma OtherTaskRow(db: Db, db': Db, a: ActionId, t: TaskId)
    requires Inv(db) && a in db.actions && a in db'.actions && OnlyCase(db, db', a)
    requires t in db'.tasks && db'.tasks[t].verification != Some(a)
    ensures TaskOk(db'.tasks[t]) && TaskLinked(db', t)
  {
    assert TaskOk(db.tasks[t]) && TaskLinked(db, t);
    var v := db'.tasks[t].verification;
    if v.Some? {
      SameRow(db.verifications, db'.verifications, a, v.value);
    }
  }

  lemma SameRow<K, V>(m: map<K, V>, m': map<K, V>, k: K, j: K)
    requires Except(m, m', k) && j != k
    ensures Lookup(m', j) == Lookup(m, j)
  {
  }

  lemma KeysKept<K, V>(m: map<K, V>, m': map<K, V>, k: K, keys: set<K>)
    requires Except(m, m', k) && m.Keys <= keys && k in keys
    ensures m'.Keys <= keys
  {
    forall j | j in m' ensures j in keys {
      if j != k { SameRow(m, m', k, j); }
    }
  }

  /** The verification task of another action does not carry a's verification. */
  lemma OtherTask(db: Db, a: ActionId, b: ActionId)
    requires Inv(db) && b in db.actions && b != a && b in db.verifications
    ensures db.verifications[b].task in db.tasks && db.tasks[db.verifications[b].task].verification == Some(b)
  {
    assert CaseOk(b, CaseOf(db, b));
  }

  // ----- Writing one case ---------------------------------------------------------------------------------

  function Put<K, V(==)>(m: map<K, V>, k: K, v: Option<V>): map<K, V> {
    if v.None? || Lookup(m, k) == v then m else m[k := v.value]
  }

  lemma PutWrites<K, V>(m: map<K, V>, k: K, v: V)
    ensures Put(m, k, Some(v)) == m[k := v]
  {
    if Lookup(m, k) == Some(v) {
      assert m[k := v] == m;
    }
  }

  /** Writing a case back changes nothing. */
  lemma CaseIsStored(db: Db, a: ActionId)
    requires a in db.actions && db.grants.Keys == db.locks.Keys
    ensures var r, c := db.actions[a].resource, CaseOf(db, a);
            && Put(db.actions, a, Some(c.action)) == db.actions
            && Put(db.executions, a, c.execution) == db.executions
            && Put(db.locks, r, c.lock) == db.locks
            && (c.lock.Some? ==> Put(db.grants, r, Some(c.grants)) == db.grants)
            && Put(db.verifications, a, c.verification) == db.verifications
            && (c.verification.Some? ==> Put(db.tasks, c.verification.value.task, c.task) == db.tasks)
            && Put(db.compensations, a, c.compensation) == db.compensations
            && Put(db.compExecutions, a, c.compExecution) == db.compExecutions
  {
  }

  /** The tables with the rows of one case replaced. */
  function WriteCase(db: Db, a: ActionId, c: Case): Db
    requires a in db.actions
  {
    var r := db.actions[a].resource;
    db.(actions := Put(db.actions, a, Some(c.action)),
        executions := Put(db.executions, a, c.execution),
        locks := Put(db.locks, r, c.lock),
        grants := if c.lock.None? then db.grants else Put(db.grants, r, Some(c.grants)),
        verifications := Put(db.verifications, a, c.verification),
        tasks := if c.verification.None? then db.tasks else Put(db.tasks, c.verification.value.task, c.task),
        compensations := Put(db.compensations, a, c.compensation),
        compExecutions := Put(db.compExecutions, a, c.compExecution))
  }

  /** A case may only change like this: rows do not vanish, a new verification brings a new task, and the lock
      is only taken when it is not somebody else's frozen one. */
  ghost predicate CaseMoves(db: Db, a: ActionId, c: Case, c': Case) {
    && CaseGrows(c, c')
    && (c'.verification.Some? ==> c'.task.Some? && TaskOk(c'.task.value) && c'.task.value.verification == Some(a))
    && (c.verification.None? && c'.verification.Some? ==> c'.verification.value.task !in db.tasks)
    && (c'.verification.None? ==> c'.task.None?)
    && if c'.lock == c.lock then c'.grants == c.grants
       else
         && c'.lock.Some? && c'.lock.value.owner == a
         && (c.lock.Some? ==> c.lock.value.owner == a || !c.lock.value.frozen)
         && LockMoves(c.lock, c.grants, c'.lock.value, c'.grants)
         && 0 < |c'.grants| == c'.lock.value.token && c'.grants[|c'.grants| - 1] == a
  }

  lemma WriteCaseReads(db: Db, a: ActionId, c': Case)
    requires Inv(db) && a in db.actions && CaseMoves(db, a, CaseOf(db, a), c')
    ensures CaseOf(WriteCase(db, a, c'), a) == c'
  {
    hide Inv, CaseOk, LockOk, TaskOk;
    CaseFacts(db, a);
    VerificationTask(db, a);
  }

  lemma WriteCaseFrames(db: Db, a: ActionId, c': Case)
    requires Inv(db) && a in db.actions && CaseMoves(db, a, CaseOf(db, a), c')
    ensures OnlyCase(db, WriteCase(db, a, c'), a)
  {
    hide Inv, CaseOk, LockOk, TaskOk;
    VerificationTask(db, a);
  }

  ghost predicate VerificationHasTask(db: Db, a: ActionId) {
    a in db.verifications ==>
      var t := db.verifications[a].task;
      t in db.tasks && db.tasks[t].verification == Some(a) && TaskOk(db.tasks[t])
  }

  lemma VerificationTask(db: Db, a: ActionId)
    requires Inv(db)
    ensures VerificationHasTask(db, a)
  {
    if a in db.verifications {
      assert CaseOk(a, CaseOf(db, a));
      assert TaskOk(db.tasks[db.verifications[a].task]);
    }
  }

  lemma WriteCaseLock(db: Db, a: ActionId, c': Case)
    requires Inv(db) && a in db.actions && CaseMoves(db, a, CaseOf(db, a), c')
    ensures var db' := WriteCase(db, a, c');
            && LockMovesTo(db, db', a) && db'.grants.Keys == db'.locks.Keys
            && (db.actions[a].resource in db'.locks ==> LockOk(db', db.actions[a].resource))
  {
    hide Inv, CaseOk;
    CaseFacts(db, a);
  }

  /** A step that writes a right case keeps the invariant. */
  lemma WriteCaseKeepsInv(db: Db, a: ActionId, c': Case)
    requires Inv(db) && a in db.actions && CaseMoves(db, a, CaseOf(db, a), c') && CaseOk(a, c')
    ensures Inv(WriteCase(db, a, c'))
  {
    hide Inv, CaseOk, LockOk, LockMovesTo, CaseOf;
    WriteCaseReads(db, a, c');
    WriteCaseFrames(db, a, c');
    WriteCaseLock(db, a, c');
    var db' := WriteCase(db, a, c');
    forall t | t in db'.tasks && db'.tasks[t].verification == Some(a)
      ensures TaskOk(db'.tasks[t]) && TaskLinked(db', t)
    {
      TaskOfCase(db, a, c', t);
    }
    CaseStep(db, db', a);
  }

  lemma TaskOfCase(db: Db, a: ActionId, c': Case, t: TaskId)
    requires Inv(db) && a in db.actions && CaseMoves(db, a, CaseOf(db, a), c')
    requires t in WriteCase(db, a, c').tasks && WriteCase(db, a, c').tasks[t].verification == Some(a)
    ensures TaskOk(WriteCase(db, a, c').tasks[t]) && TaskLinked(WriteCase(db, a, c'), t)
  {
    hide CaseOk, LockOk;
    if t in db.tasks && db.tasks[t].verification == Some(a) {
      assert TaskOk(db.tasks[t]) && TaskLinked(db, t);
    }
  }

  // ----- Exclusion -------------------------------------------------------------------------------------------

  /** The statuses in which an action may have changed its resource and has not settled it. */
  predicate InDoubt(s: ActionStatus) {
    s.Running? || s.Unknown? || Frozen(s)
  }

  /** A running or unknown execution still holds the lock; a running one's lease ends before the lock's. */
  predicate ExclusiveCase(a: ActionId, c: Case) {
    && (c.action.status.Running? || c.action.status.Unknown? ==> Holds(a, c))
    && (c.action.status.Running? ==>
          c.execution.value.lease.Some? && c.execution.value.lease.value <= c.lock.value.expires)
    && (c.action.status.Unknown? ==> c.lock.value.frozen)
  }

  ghost predicate Exclusive(db: Db) {
    forall a :: a in db.actions ==> ExclusiveCase(a, CaseOf(db, a))
  }

  lemma ForeignExclusive(a: ActionId, b: ActionId, c: Case, c': Case)
    requires CaseOk(b, c) && ExclusiveCase(b, c) && b != a
    requires c' == c.(lock := c'.lock, grants := c'.grants)
    requires c'.lock == c.lock
             || (c.lock.Some? && (c.lock.value.owner == b ==> !c.lock.value.frozen && !c.action.status.Running?))
             || c.lock.None?
    ensures ExclusiveCase(b, c')
  {
  }

  lemma WriteCaseKeepsExclusive(db: Db, a: ActionId, c': Case)
    requires Inv(db) && a in db.actions && CaseMoves(db, a, CaseOf(db, a), c') && ExclusiveCase(a, c')
    requires Exclusive(db)
    requires var c := CaseOf(db, a);
             c'.lock != c.lock && c.lock.Some? && c.lock.value.owner != a && c.lock.value.owner in db.actions
             ==> !db.actions[c.lock.value.owner].status.Running?
    ensures Exclusive(WriteCase(db, a, c'))
  {
    var db' := WriteCase(db, a, c');
    forall b | b in db'.actions
      ensures ExclusiveCase(b, CaseOf(db', b))
    {
      if b == a {
        WriteCaseReads(db, a, c');
      } else {
        OtherExclusive(db, a, c', b);
      }
    }
  }

  lemma OtherExclusive(db: Db, a: ActionId, c': Case, b: ActionId)
    requires Inv(db) && a in db.actions && CaseMoves(db, a, CaseOf(db, a), c')
    requires b in WriteCase(db, a, c').actions && b != a
    requires b in db.actions ==> ExclusiveCase(b, CaseOf(db, b))
    requires var c := CaseOf(db, a);
             c'.lock != c.lock && c.lock.Some? && c.lock.value.owner != a && c.lock.value.owner in db.actions
             ==> !db.actions[c.lock.value.owner].status.Running?
    ensures ExclusiveCase(b, CaseOf(WriteCase(db, a, c'), b))
  {
    hide Inv, LockOk, CaseOk, ExclusiveCase, TaskOk;
    var db' := WriteCase(db, a, c');
    var r := db.actions[a].resource;
    assert b in db.actions && db'.actions[b] == db.actions[b];
    CaseFacts(db, b);
    VerificationTask(db, a);
    VerificationTask(db, b);
    ForeignExclusive(a, b, CaseOf(db, b), CaseOf(db', b));
  }
}
