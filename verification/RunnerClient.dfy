/** The runner's side of an action's completion (runner/opspilot_runner/client.py): up to three attempts under
    one completion id over a network that loses requests and responses, while the server serves everybody else. */
module RunnerClient {
  import opened Common
  import opened Records
  import opened Tables
  import opened ActionInvariants
  import opened StepRelations
  import opened System
  import opened DispatcherService
  import ActionDispatcher
  import ActionSteps
  import Effects
  import Outcomes
  import ResourceLocks
  import RunInvariants

  /** What happens to one attempt: the request is lost, the response is lost, the server fails and rolls back
      (a status of 500 or more), or the response arrives. */
  datatype Delivery = RequestLost | ResponseLost | ServerFailed | Delivered

  /** One attempt, and the steps the server takes for others before it. `task` is the id a verification task would
      get. */
  datatype Attempt = Attempt(others: seq<Step>, delivery: Delivery, now: Time, task: TaskId)

  /** `Stale` is a 409 that tells the runner its execution is no longer its own. */
  datatype Report = Reported | Stale | Raised

  predicate StaleCode(code: Code) {
    code.ExecutionFenced? || code.ActionNotRunning? || code.ExecutionLeaseExpired? || code.LockInvalid?
  }

  datatype Completion = Completion(
    a: ActionId, runner: RunnerId, id: CompletionId, executionToken: Token, token: Token, succeeded: bool)

  function Request(c: Completion, at: Attempt): Step {
    OnAction(ActionSteps.Complete(c.a, c.runner, c.id, c.executionToken, c.token, c.succeeded, at.task, at.now))
  }

  const ATTEMPTS := 3

  // ----- The steps of others -----------------------------------------------------------------------------

  function Onwards(cfg: Settings, db: Db, steps: seq<Step>): Db {
    if steps == [] then db else Next(cfg, Onwards(cfg, db, steps[..|steps|-1]), steps[|steps|-1])
  }

  lemma {:induction false} OnwardsGrows(cfg: Settings, db: Db, steps: seq<Step>)
    requires Inv(db)
    ensures Inv(Onwards(cfg, db, steps)) && Grows(db, Onwards(cfg, db, steps))
  {
    hide Inv, Grows, Next;
    if steps == [] {
      NothingGrows(db);
    } else {
      var mid := Onwards(cfg, db, steps[..|steps|-1]);
      OnwardsGrows(cfg, db, steps[..|steps|-1]);
      StepKeeps(cfg, mid, steps[|steps|-1]);
      GrowsOn(db, mid, Onwards(cfg, db, steps));
    }
  }

  /** Steps taken from a state of a run continue that run. */
  lemma {:induction false} OnwardsIsARun(cfg: Settings, before: seq<Step>, steps: seq<Step>)
    ensures Onwards(cfg, State(cfg, before), steps) == State(cfg, before + steps)
  {
    hide Next;
    if steps == [] {
      assert before + steps == before;
    } else {
      OnwardsIsARun(cfg, before, steps[..|steps|-1]);
      assert (before + steps)[..|before + steps|-1] == before + steps[..|steps|-1];
    }
  }

  // ----- The attempts ---------------------------------------------------------------------------------------

  /** What the runner reports, the steps the server has taken by then, and how many attempts it accepted. */
  datatype Ended = Ended(report: Report, steps: seq<Step>, accepted: nat)

  function Answered(o: Outcome): Report {
    if o.Refused? then (if StaleCode(o.code) then Stale else Raised) else Reported
  }

  /** The attempts from number n on, made while the tables are `db`. */
  function Attempts(cfg: Settings, db: Db, c: Completion, attempts: seq<Attempt>, n: nat): Ended
    requires n <= |attempts|
    decreases |attempts| - n
  {
    if n == |attempts| then Ended(Raised, [], 0)
    else
      var at := attempts[n];
      var mid := Onwards(cfg, db, at.others);
      if at.delivery.RequestLost? || at.delivery.ServerFailed? then
        var rest := Attempts(cfg, mid, c, attempts, n + 1);
        rest.(steps := at.others + rest.steps)
      else
        var o := Apply(cfg, mid, Request(c, at));
        var rest :=
          if at.delivery.Delivered? then Ended(Answered(o), [], 0)
          else Attempts(cfg, After(mid, o), c, attempts, n + 1);
        Ended(rest.report, at.others + [Request(c, at)] + rest.steps, rest.accepted + if o.Accepted? then 1 else 0)
  }

  ghost predicate Heard(attempts: seq<Attempt>, n: nat) {
    exists k :: n <= k < |attempts| && attempts[k].delivery.Delivered?
  }

  /** Whatever the network loses and whatever else the server does in between, at most one attempt is accepted. The
      runner reports success exactly when a response arrived and the completion is stored under its id; it calls its
      execution stale only when no attempt was accepted and the completion is not stored. A completion that was stored
      before is not accepted again. The tables may be those of any reachable state. */
  lemma ReportIsRight(cfg: Settings, db: Db, c: Completion, attempts: seq<Attempt>)
    requires Inv(db)
    ensures var e := Attempts(cfg, db, c, attempts, 0);
            var db' := Onwards(cfg, db, e.steps);
            && e.accepted <= 1
            && (e.report.Reported? <==> Heard(attempts, 0) && Outcomes.Completed(db', c.a, c.id))
            && (e.report.Stale? ==> e.accepted == 0 && !Outcomes.Completed(db', c.a, c.id))
            && (e.accepted == 1 ==> Outcomes.Completed(db', c.a, c.id) && !Outcomes.Completed(db, c.a, c.id))
  {
    ReportFrom(cfg, db, c, attempts, 0);
  }

  /** The same over runs of the system: the attempts, each at its own moment and among any steps of others, continue
      the run `before`. */
  lemma ReportOverRuns(cfg: Settings, before: seq<Step>, c: Completion, attempts: seq<Attempt>)
    ensures var e := Attempts(cfg, State(cfg, before), c, attempts, 0);
            var db' := State(cfg, before + e.steps);
            && e.accepted <= 1
            && (e.report.Reported? <==> Heard(attempts, 0) && Outcomes.Completed(db', c.a, c.id))
            && (e.report.Stale? ==> e.accepted == 0 && !Outcomes.Completed(db', c.a, c.id))
            && (e.accepted == 1 ==>
                  Outcomes.Completed(db', c.a, c.id) && !Outcomes.Completed(State(cfg, before), c.a, c.id))
  {
    hide Inv, State, Onwards, Attempts, Outcomes.Completed, RunInvariants.RunsOk, RunInvariants.Linked;
    Reachable(cfg, before);
    ReportIsRight(cfg, State(cfg, before), c, attempts);
    OnwardsIsARun(cfg, before, Attempts(cfg, State(cfg, before), c, attempts, 0).steps);
  }

  lemma {:induction false} ReportFrom(cfg: Settings, db: Db, c: Completion, attempts: seq<Attempt>, n: nat)
    requires Inv(db) && n <= |attempts|
    ensures var e := Attempts(cfg, db, c, attempts, n);
            var db' := Onwards(cfg, db, e.steps);
            && e.accepted <= 1
            && (e.report.Reported? <==> Heard(attempts, n) && Outcomes.Completed(db', c.a, c.id))
            && (e.report.Stale? ==> e.accepted == 0 && !Outcomes.Completed(db', c.a, c.id))
            && (e.accepted == 1 ==> Outcomes.Completed(db', c.a, c.id) && !Outcomes.Completed(db, c.a, c.id))
    decreases |attempts| - n
  {
    hide Inv, Grows, Next, Apply, Onwards, Outcomes.Completed, Outcomes.CompCompleted;
    if n < |attempts| {
      var at := attempts[n];
      var mid := Onwards(cfg, db, at.others);
      OnwardsGrows(cfg, db, at.others);
      Outcomes.CompletionIsKept(db, mid, c.a, c.id);
      if at.delivery.RequestLost? || at.delivery.ServerFailed? {
        ReportFrom(cfg, mid, c, attempts, n + 1);
        Joined(cfg, db, at.others, Attempts(cfg, mid, c, attempts, n + 1).steps);
      } else {
        OneAttempt(cfg, mid, c, at);
        var o := Apply(cfg, mid, Request(c, at));
        var rest :=
          if at.delivery.Delivered? then Ended(Answered(o), [], 0)
          else Attempts(cfg, After(mid, o), c, attempts, n + 1);
        if !at.delivery.Delivered? { ReportFrom(cfg, After(mid, o), c, attempts, n + 1); }
        Joined(cfg, db, at.others, [Request(c, at)] + rest.steps);
        Joined(cfg, mid, [Request(c, at)], rest.steps);
        assert at.others + [Request(c, at)] + rest.steps == at.others + ([Request(c, at)] + rest.steps);
        OnwardsGrows(cfg, After(mid, o), rest.steps);
        Outcomes.CompletionIsKept(After(mid, o), Onwards(cfg, After(mid, o), rest.steps), c.a, c.id);
        Unmoved(cfg, After(mid, o));
      }
    }
  }

  /** One attempt the server sees: taken, answered again because it was taken, or refused because it was not. */
  lemma OneAttempt(cfg: Settings, db: Db, c: Completion, at: Attempt)
    requires Inv(db)
    ensures var o := Apply(cfg, db, Request(c, at));
            var db' := After(db, o);
            && Inv(db') && db' == Onwards(cfg, db, [Request(c, at)])
            && !o.Idle?
            && (o.Accepted? ==> !Outcomes.Completed(db, c.a, c.id) && Outcomes.Completed(db', c.a, c.id))
            && (o.Replayed? ==> Outcomes.Completed(db, c.a, c.id) && db' == db)
            && (o.Refused? ==> !Outcomes.Completed(db, c.a, c.id))
  {
    hide Inv, Grows, ActionDispatcher.OwnershipError, ResourceLocks.LockOf, ActionDispatcher.SetAction;
    StepKeeps(cfg, db, Request(c, at));
    Unmoved(cfg, db);
    assert [Request(c, at)][..0] == [];
    if Outcomes.Completed(db, c.a, c.id) {
      Outcomes.CompletedAnswers(cfg, db, Request(c, at), c.a, c.id, c.id);
    }
    if Apply(cfg, db, Request(c, at)).Accepted? {
      Outcomes.CompletionIsStored(cfg, db, Request(c, at), c.a, c.id);
    }
  }

  lemma Unmoved(cfg: Settings, db: Db)
    ensures Onwards(cfg, db, []) == db
  {
  }

  lemma {:induction false} Joined(cfg: Settings, db: Db, s: seq<Step>, t: seq<Step>)
    ensures Onwards(cfg, db, s + t) == Onwards(cfg, Onwards(cfg, db, s), t)
  {
    hide Next;
    if t == [] {
      assert s + t == s;
    } else {
      Joined(cfg, db, s, t[..|t|-1]);
      assert (s + t)[..|s + t|-1] == s + t[..|t|-1];
    }
  }

  // ----- The loop -----------------------------------------------------------------------------------------------

  class Client {
    const service: ActionDispatcherService

    constructor (service: ActionDispatcherService)
      ensures this.service == service
    {
      this.service := service;
    }

    /** The server's other work. */
    method Serve(steps: seq<Step>)
      requires Inv(service.db.State())
      modifies service.db
      ensures service.db.State() == Onwards(service.cfg, old(service.db.State()), steps) && Inv(service.db.State())
    {
      hide Inv, Grows;
      ghost var before := service.db.State();
      OnwardsGrows(service.cfg, before, steps);
      service.db.Rollback(Onwards(service.cfg, service.db.State(), steps));
    }

    /** `_complete_action`. */
    method CompleteAction(c: Completion, attempts: seq<Attempt>) returns (report: Report)
      requires |attempts| == ATTEMPTS
      requires Inv(service.db.State())
      modifies service.db
      ensures var e := Attempts(service.cfg, old(service.db.State()), c, attempts, 0);
              && report == e.report
              && service.db.State() == Onwards(service.cfg, old(service.db.State()), e.steps)
      ensures Inv(service.db.State())
    {
      hide Inv, Apply, Onwards, ActionDispatcher.Complete, Next, Effects.CompletionSettled;
      ghost var cfg, before := service.cfg, service.db.State();
      ghost var taken: seq<Step> := [];
      Unmoved(cfg, before);
      for n := 0 to ATTEMPTS
        invariant Inv(service.db.State()) && service.db.State() == Onwards(cfg, before, taken)
        invariant var e, rest := Attempts(cfg, before, c, attempts, 0),
                                 Attempts(cfg, service.db.State(), c, attempts, n);
                  e.report == rest.report && e.steps == taken + rest.steps
      {
        var at := attempts[n];
        ghost var db := service.db.State();
        Serve(at.others);
        Joined(cfg, before, taken, at.others);
        if at.delivery.RequestLost? || at.delivery.ServerFailed? {
          taken := taken + at.others;
        } else {
          ghost var mid := service.db.State();
          OneAttempt(cfg, mid, c, at);
          Joined(cfg, before, taken + at.others, [Request(c, at)]);
          ghost var earlier := taken;
          taken := taken + at.others + [Request(c, at)];
          assert taken == earlier + (at.others + [Request(c, at)] + []);
          var reply := service.Complete(c.a, c.runner, c.id, c.executionToken, c.token, c.succeeded, at.task, at.now);
          SameRequest(cfg, mid, c, at);
          if at.delivery.Delivered? {
            if reply.Error? {
              return if StaleCode(reply.code) then Stale else Raised;
            }
            return Reported;
          }
        }
      }
      assert taken + [] == taken;
      return Raised;
    }
  }

  lemma SameRequest(cfg: Settings, db: Db, c: Completion, at: Attempt)
    ensures Apply(cfg, db, Request(c, at))
            == ActionDispatcher.Complete(db, c.a, c.runner, c.id, c.executionToken, c.token, c.succeeded, at.task,
                                         at.now)
  {
  }
}
