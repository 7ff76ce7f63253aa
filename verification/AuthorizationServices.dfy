/** The authorisation services as they run: in-place updates of the book, and errors that change nothing
    (backend/app/services/policies.py, approvals.py, actions.py). */
module AuthorizationServices {
  import opened Common
  import opened Policies
  import opened Authorization

  datatype Reply = Done | Again(action: ActionId) | Error(denial: Denial)

  function Answer(o: Outcome): Reply {
    match o
    case Accepted(_) => Done
    case Replayed(a) => Again(a)
    case Refused(denial) => Error(denial)
  }

  // ----- What the services keep and mean ------------------------------------------------------------------

  /** Authorisations stay single-use and rightly founded. */
  ghost predicate KeepsBook(b: Book, b': Book) {
    Inv(b) ==> Inv(b')
  }

  /** No rule counts another action of any incident. */
  ghost predicate CountsNothing(b: Book, b': Book) {
    Inv(b) ==> forall incident, rule :: Count(b', incident, rule) == Count(b, incident, rule)
  }

  lemma StepKeepsBook(b: Book, s: Step)
    ensures KeepsBook(b, Next(b, s))
    ensures !(s.ActionCreation? && Apply(b, s).Accepted?) ==> CountsNothing(b, Next(b, s))
  {
    hide Inv, Next, Apply, Count;
    if Inv(b) {
      StepKeeps(b, s);
      if !(s.ActionCreation? && Apply(b, s).Accepted?) {
        forall incident, rule ensures Count(Next(b, s), incident, rule) == Count(b, incident, rule) {
          OnlyCreationCounts(b, s, incident, rule);
        }
      }
    }
  }

  /** No decision made under this version of the rule authorises anything any more. */
  ghost predicate OutdatesDecisions(b: Book, rule: RuleId, version: nat) {
    forall d, now ::
      d in b.decisions && b.decisions[d].decision.rule == Some(rule) && b.decisions[d].decision.version == Some(version)
      ==> Authorize(b, b.decisions[d], now).None?
  }

  /** The approval, if the decision asks for one, is the decision's own, approved, unexpired, unused and for exactly
      these parameters. */
  ghost predicate Covered(b: Book, d: DecisionId, approval: Option<ApprovalId>, parameters: Parameters, at: Time)
    requires d in b.decisions
  {
    if !b.decisions[d].decision.approvalRequired then approval.None?
    else
      && approval.Some? && approval.value in b.approvals
      && var a := b.approvals[approval.value];
         a.decision == d && a.status.Approved? && at < a.expires && a.parameters == parameters
         && forall c :: c in b.requests ==> b.requests[c].approval != approval
  }

  /** A cancelled action keeps its decision and its approval used. */
  lemma CancellationFreesNothing(b: Book, a: ActionId, expectedVersion: nat)
    ensures var b' := After(b, Authorization.CancelAction(b, a, expectedVersion));
            && (forall d :: UsesDecision(b', d) <==> UsesDecision(b, d))
            && (forall p :: UsesApproval(b', p) <==> UsesApproval(b, p))
  {
    var b' := After(b, Authorization.CancelAction(b, a, expectedVersion));
    assert forall c :: c in b.requests ==>
                         c in b'.requests && b'.requests[c].decision == b.requests[c].decision
                         && b'.requests[c].approval == b.requests[c].approval;
    assert forall c :: c in b'.requests ==> c in b.requests;
  }

  class AuthorizationBook {
    var rules: map<RuleId, Rule>
    var decisions: map<DecisionId, Snapshot>
    var approvals: map<ApprovalId, Approval>
    var requests: map<ActionId, Request>

    constructor ()
      ensures State() == Book(map[], map[], map[], map[])
    {
      rules, decisions, approvals, requests := map[], map[], map[], map[];
    }

    function State(): Book
      reads this
    {
      Book(rules, decisions, approvals, requests)
    }

    method CountActions(incident: IncidentId, rule: RuleId) returns (n: nat)
      ensures n == Count(State(), incident, rule)
    {
      var counted := set a | a in requests && requests[a].incident == incident && requests[a].decision in decisions
                             && decisions[requests[a].decision].decision.rule == Some(rule);
      assert counted == Counted(State(), incident, rule);
      return |counted|;
    }

    method UpdateRule(expectedVersion: nat, rule: Rule) returns (reply: Reply)
      modifies this
      ensures var o := Authorization.UpdateRule(old(State()), expectedVersion, rule);
              reply == Answer(o) && State() == After(old(State()), o)
      ensures reply.Done? ==>
                && rule.id in old(rules) && rules.Keys == old(rules).Keys
                && var was, now := old(rules)[rule.id], rules[rule.id];
                   && now.created == was.created && now.version == was.version + 1
                   && now.(created := rule.created, version := rule.version) == rule
      ensures reply.Done? ==> OutdatesDecisions(State(), rule.id, expectedVersion)
      ensures KeepsBook(old(State()), State()) && CountsNothing(old(State()), State())
    {
      hide KeepsBook, CountsNothing;
      StepKeepsBook(State(), RuleUpdate(expectedVersion, rule));
      if rule.id !in rules { return Error(RuleNotFound); }
      var record := rules[rule.id];
      if record.version != expectedVersion { return Error(RuleVersionConflict); }
      rules := rules[rule.id := rule.(created := record.created, version := record.version + 1)];
      return Done;
    }

    /** `evaluate`: two passes of the decision loop. */
    method Evaluate(d: DecisionId, environment: nat, incident: IncidentId, t: Target, list: seq<Rule>, now: Moment)
      returns (reply: Reply)
      modifies this
      ensures var o := Authorization.Evaluate(old(State()), d, environment, incident, t, list, now);
              reply == Answer(o) && State() == After(old(State()), o)
      ensures KeepsBook(old(State()), State()) && CountsNothing(old(State()), State())
    {
      hide KeepsBook, CountsNothing;
      StepKeepsBook(State(), Evaluation(d, environment, incident, t, list, now));
      if d in decisions { return Error(NotOffered); }
      var decision := DecideLoop(list, t, now, None);
      SameCounts(list, t, now, _ => None, _ => None);
      if decision.rule.Some? {
        var i := decision.rule.value;
        if i !in rules || !rules[i].enabled || Some(rules[i].version) != decision.version {
          return Error(PolicyRuleChanged);
        }
        var consumed := CountActions(incident, i);
        decision := DecideLoop([rules[i]], t, now, Some(consumed));
        ghost var book := State();
        SameCounts([rules[i]], t, now, _ => Some(consumed), _ => Some(Count(book, incident, i)));
      }
      decisions := decisions[d := Snapshot(environment, incident, t, decision)];
      return Done;
    }

    /** `_resolve`. */
    method Resolve(p: ApprovalId, status: ApprovalStatus)
      requires p in approvals
      modifies this
      ensures State() == old(State()).(approvals := old(approvals)[p := Resolved(old(approvals)[p], status)])
    {
      approvals := approvals[p := approvals[p].(status := status, version := approvals[p].version + 1)];
    }

    method DecideApproval(p: ApprovalId, approve: bool, expectedVersion: nat, edits: Parameters, actor: Option<nat>,
                          list: seq<Rule>, at: Time, now: Moment) returns (reply: Reply)
      modifies this
      ensures var o :=
                Authorization.DecideApproval(old(State()), p, approve, expectedVersion, edits, actor, list, at, now);
              reply == Answer(o) && State() == After(old(State()), o)
      ensures reply.Done? ==> ApprovalSettled(old(State()), State(), p, approve, edits, actor, list, at, now)
      ensures KeepsBook(old(State()), State()) && CountsNothing(old(State()), State())
    {
      hide KeepsBook, CountsNothing, ApprovalSettled;
      DecisionSettles(State(), p, approve, expectedVersion, edits, actor, list, at, now);
      StepKeepsBook(State(), ApprovalDecision(p, approve, expectedVersion, edits, actor, list, at, now));
      hide Decide;
      if p !in approvals { return Error(ApprovalNotFound); }
      var a := approvals[p];
      if a.version != expectedVersion { return Error(ApprovalVersionConflict); }
      if !a.status.Pending? { return Error(ApprovalResolved); }
      if a.expires <= at {
        Resolve(p, ApprovalExpired);
        return Done;
      }
      if actor == Some(a.requestedBy) { return Error(SelfDecision); }
      var invalid := edits.Keys - a.editable;
      assert forall k :: k in invalid <==> k in edits.Keys && k !in a.editable;
      if invalid != {} { return Error(EditForbidden); }
      if approve {
        if a.decision !in decisions { return Error(DecisionNotFound); }
        var current := DecideLoop(list, decisions[a.decision].target, now, None);
        SameCounts(list, decisions[a.decision].target, now, _ => None, _ => None);
        if !current.allowed || !current.approvalRequired { return Error(RevalidationFailed); }
      }
      approvals := approvals[p := a.(parameters := a.parameters + edits)];
      Resolve(p, if approve then Approved else Rejected);
      return Done;
    }

    method ValidateApproval(d: DecisionId, approval: Option<ApprovalId>, parameters: Parameters, at: Time)
      returns (error: Option<Denial>)
      requires d in decisions
      ensures error == ApprovalError(State(), d, approval, parameters, at)
      ensures error.None? <==> Covered(State(), d, approval, parameters, at)
    {
      if !decisions[d].decision.approvalRequired {
        if approval.Some? { return Some(ApprovalUnexpected); }
        return None;
      }
      if approval.None? { return Some(ApprovalRequired); }
      if approval.value !in approvals { return Some(ApprovalInvalid); }
      var a := approvals[approval.value];
      if a.decision != d { return Some(ApprovalInvalid); }
      if !a.status.Approved? { return Some(ApprovalNotApproved); }
      if a.expires <= at { return Some(ApprovalLapsed); }
      if a.parameters != parameters { return Some(ParametersChanged); }
      if exists c :: c in requests && requests[c].approval == approval { return Some(ApprovalConsumed); }
      return None;
    }

    /** `authorize_action_creation`. */
    method AuthorizeCreation(s: Snapshot, now: Moment) returns (current: Option<Decision>)
      ensures current == Authorize(State(), s, now)
    {
      if s.decision.rule.None? {
        return Some(DENIED);
      }
      var i := s.decision.rule.value;
      if i !in rules || !rules[i].enabled || Some(rules[i].version) != s.decision.version { return None; }
      var consumed := CountActions(s.incident, i);
      var decision := DecideLoop([rules[i]], s.target, now, Some(consumed));
      ghost var book := State();
      SameCounts([rules[i]], s.target, now, _ => Some(consumed), _ => Some(Count(book, s.incident, i)));
      return Some(decision);
    }

    method CreateAction(a: ActionId, d: DecisionId, approval: Option<ApprovalId>, parameters: Parameters, details: nat,
                        key: nat, valid: bool, holder: Option<ActionId>, at: Time, now: Moment) returns (reply: Reply)
      modifies this
      ensures var o := Authorization.CreateAction(old(State()), a, d, approval, parameters, details, key, valid, holder,
                                                  at, now);
              reply == Answer(o) && State() == After(old(State()), o)
      ensures reply.Done? ==>
                && a !in old(requests) && a in requests && d in decisions
                && var r := requests[a];
                   && r.status.RequestReady? && r.version == 1
                   && r.decision == d && r.approval == approval && r.parameters == parameters && r.details == details
                   && r.key == key && r.environment == decisions[d].environment && r.incident == decisions[d].incident
      ensures KeepsBook(old(State()), State())
    {
      hide KeepsBook;
      StepKeepsBook(State(), ActionCreation(a, d, approval, parameters, details, key, valid, holder, at, now));
      hide Authorize, ApprovalError;
      if d !in decisions { return Error(DecisionNotFound); }
      var s := decisions[d];
      if !s.decision.allowed { return Error(PolicyDenied); }
      if !valid { return Error(ParametersInvalid); }
      if holder.Some? {
        if !HasKey(State(), holder.value, s.environment, key) { return Error(NotOffered); }
        var existing := requests[holder.value];
        if existing.decision != d || existing.approval != approval || existing.parameters != parameters
           || existing.details != details
        {
          return Error(IdempotencyConflict);
        }
        return Again(holder.value);
      }
      if KeyTaken(State(), s.environment, key) { return Error(NotOffered); }
      if exists c :: c in requests && requests[c].decision == d { return Error(AuthorizationConsumed); }
      var error := ValidateApproval(d, approval, parameters, at);
      if error.Some? { return Error(error.value); }
      var current := AuthorizeCreation(s, now);
      if current.None? { return Error(PolicyRuleChanged); }
      if !current.value.allowed || current.value.approvalRequired != s.decision.approvalRequired {
        return Error(RevalidationFailed);
      }
      if a in requests { return Error(NotOffered); }
      requests :=
        requests[a := Request(d, approval, s.environment, s.incident, parameters, details, key, RequestReady, 1)];
      return Done;
    }

    method CancelAction(a: ActionId, expectedVersion: nat) returns (reply: Reply)
      modifies this
      ensures var o := Authorization.CancelAction(old(State()), a, expectedVersion);
              reply == Answer(o) && State() == After(old(State()), o)
      ensures reply.Done? ==>
                && a in requests && requests[a].status.RequestCancelled?
                && (forall d :: UsesDecision(State(), d) <==> UsesDecision(old(State()), d))
                && (forall p :: UsesApproval(State(), p) <==> UsesApproval(old(State()), p))
      ensures KeepsBook(old(State()), State()) && CountsNothing(old(State()), State())
    {
      hide KeepsBook, CountsNothing;
      StepKeepsBook(State(), ActionCancellation(a, expectedVersion));
      CancellationFreesNothing(State(), a, expectedVersion);
      if a !in requests { return Error(RequestNotFound); }
      var r := requests[a];
      if r.version != expectedVersion { return Error(RequestVersionConflict); }
      if !r.status.RequestReady? { return Error(RequestNotCancellable); }
      requests := requests[a := r.(status := RequestCancelled, version := r.version + 1)];
      return Done;
    }
  }

  /** A decision depends on nothing but the counts of the rules it looks at. */
  lemma {:induction false} SameCounts(rules: seq<Rule>, t: Target, now: Moment, c: RuleId -> Option<nat>,
                                      e: RuleId -> Option<nat>)
    requires forall r :: r in rules ==> c(r.id) == e(r.id)
    ensures Decide(rules, t, now, c) == Decide(rules, t, now, e)
  {
    if rules != [] { SameCounts(rules[1..], t, now, c, e); }
  }
}
