/** Single-use authorisation: policy decisions, approvals and the actions they allow
    (backend/app/services/policies.py, approvals.py, actions.py). */
module Authorization {
  import opened Common
  import opened Policies

  type DecisionId = nat
  type ApprovalId = nat
  type IncidentId = nat
  type Parameters = map<nat, nat>

  /** A stored policy decision. */
  datatype Snapshot = Snapshot(environment: nat, incident: IncidentId, target: Target, decision: Decision)

  datatype ApprovalStatus = Pending | Approved | Rejected | ApprovalExpired

  /** `requested` is a history variable: the parameters the approval was created with. */
  datatype Approval = Approval(
    decision: DecisionId,
    status: ApprovalStatus,
    requestedBy: nat,
    expires: Time,
    parameters: Parameters,
    editable: set<nat>,
    version: nat,
    requested: Parameters)

  datatype RequestStatus = RequestReady | RequestCancelled

  /** `details` stands for the verification criteria and the rollback capability, which are only compared. */
  datatype Request = Request(
    decision: DecisionId,
    approval: Option<ApprovalId>,
    environment: nat,
    incident: IncidentId,
    parameters: Parameters,
    details: nat,
    key: nat,
    status: RequestStatus,
    version: nat)

  datatype Book = Book(
    rules: map<RuleId, Rule>,
    decisions: map<DecisionId, Snapshot>,
    approvals: map<ApprovalId, Approval>,
    requests: map<ActionId, Request>)

  datatype Denial =
    | DecisionNotFound | PolicyDenied | ParametersInvalid | IdempotencyConflict | AuthorizationConsumed
    | ApprovalUnexpected | ApprovalRequired | ApprovalInvalid | ApprovalNotApproved | ApprovalLapsed
    | ParametersChanged | ApprovalConsumed | PolicyRuleChanged | RevalidationFailed
    | ApprovalNotRequired | ApprovalExists | ApprovalNotFound | ApprovalVersionConflict | ApprovalResolved
    | SelfDecision | EditForbidden
    | RuleNotFound | RuleVersionConflict | RequestNotFound | RequestVersionConflict | RequestNotCancellable
    | NotOffered

  datatype Outcome = Accepted(book: Book) | Replayed(action: ActionId) | Refused(denial: Denial)

  function After(before: Book, o: Outcome): Book {
    if o.Accepted? then o.book else before
  }

  // ----- Queries ---------------------------------------------------------------------------------------

  /** The actions of an incident whose decision matched a rule. */
  function Counted(b: Book, incident: IncidentId, rule: RuleId): set<ActionId> {
    set a | a in b.requests && b.requests[a].incident == incident && b.requests[a].decision in b.decisions
            && b.decisions[b.requests[a].decision].decision.rule == Some(rule)
  }

  /** `count_actions_for_incident_rule`; the status of the action does not matter. */
  function Count(b: Book, incident: IncidentId, rule: RuleId): nat {
    |Counted(b, incident, rule)|
  }

  predicate HasKey(b: Book, a: ActionId, environment: nat, key: nat) {
    a in b.requests && b.requests[a].environment == environment && b.requests[a].key == key
  }

  predicate KeyTaken(b: Book, environment: nat, key: nat) {
    exists a :: a in b.requests && b.requests[a].environment == environment && b.requests[a].key == key
  }

  predicate UsesDecision(b: Book, d: DecisionId) {
    exists a :: a in b.requests && b.requests[a].decision == d
  }

  predicate UsesApproval(b: Book, p: ApprovalId) {
    exists a :: a in b.requests && b.requests[a].approval == Some(p)
  }

  // ----- Rules and decisions --------------------------------------------------------------------------------

  function CreateRule(b: Book, rule: Rule): Outcome {
    if rule.id in b.rules then Refused(RuleNotFound)
    else Accepted(b.(rules := b.rules[rule.id := rule.(version := 1)]))
  }

  function UpdateRule(b: Book, expectedVersion: nat, rule: Rule): Outcome {
    if rule.id !in b.rules then Refused(RuleNotFound)
    else if b.rules[rule.id].version != expectedVersion then Refused(RuleVersionConflict)
    else Accepted(b.(rules :=
      b.rules[rule.id := rule.(created := b.rules[rule.id].created, version := expectedVersion + 1)]))
  }

  /** `list` is the answer of `list_for_environment`, `d` a fresh id. */
  function Evaluate(b: Book, d: DecisionId, environment: nat, incident: IncidentId, t: Target, list: seq<Rule>,
                    now: Moment): Outcome
  {
    if d in b.decisions then Refused(NotOffered)
    else
      match Policies.Evaluate(b.rules, list, t, now, (i: RuleId) => Count(b, incident, i))
      case None => Refused(PolicyRuleChanged)
      case Some(decision) =>
        Accepted(b.(decisions := b.decisions[d := Snapshot(environment, incident, t, decision)]))
  }

  /** `authorize_action_creation`: None if the rule changed. */
  function Authorize(b: Book, s: Snapshot, now: Moment): Option<Decision> {
    if s.decision.rule.None? then Some(DENIED)
    else
      var i := s.decision.rule.value;
      if i !in b.rules || !b.rules[i].enabled || Some(b.rules[i].version) != s.decision.version then None
      else Some(Decide([b.rules[i]], s.target, now, _ => Some(Count(b, s.incident, i))))
  }

  // ----- Approvals ----------------------------------------------------------------------------------------------

  function CreateApproval(b: Book, p: ApprovalId, d: DecisionId, actor: nat, expires: Time, parameters: Parameters,
                          editable: set<nat>): Outcome
  {
    if d !in b.decisions then Refused(DecisionNotFound)
    else if !b.decisions[d].decision.allowed || !b.decisions[d].decision.approvalRequired
      then Refused(ApprovalNotRequired)
    else if p in b.approvals || exists q :: q in b.approvals && b.approvals[q].decision == d
      then Refused(ApprovalExists)
    else Accepted(b.(approvals := b.approvals[p :=
           Approval(d, Pending, actor, expires, parameters, editable, 1, parameters)]))
  }

  function Resolved(a: Approval, status: ApprovalStatus): Approval {
    a.(status := status, version := a.version + 1)
  }

  /** `list` is the answer of `list_for_environment` for the revalidation. */
  function DecideApproval(b: Book, p: ApprovalId, approve: bool, expectedVersion: nat, edits: Parameters,
                          actor: Option<nat>, list: seq<Rule>, at: Time, now: Moment): Outcome
  {
    if p !in b.approvals then Refused(ApprovalNotFound)
    else
      var a := b.approvals[p];
      if a.version != expectedVersion then Refused(ApprovalVersionConflict)
      else if !a.status.Pending? then Refused(ApprovalResolved)
      else if a.expires <= at then Accepted(b.(approvals := b.approvals[p := Resolved(a, ApprovalExpired)]))
      else if actor == Some(a.requestedBy) then Refused(SelfDecision)
      else if !(edits.Keys <= a.editable) then Refused(EditForbidden)
      else if approve && a.decision !in b.decisions then Refused(DecisionNotFound)
      else
        var current := if a.decision in b.decisions
                       then Decide(list, b.decisions[a.decision].target, now, _ => None) else DENIED;
        if approve && (!current.allowed || !current.approvalRequired) then Refused(RevalidationFailed)
        else
          var edited := a.(parameters := a.parameters + edits);
          Accepted(b.(approvals := b.approvals[p := Resolved(edited, if approve then Approved else Rejected)]))
  }

  /** `_validate_approval`. */
  function ApprovalError(b: Book, d: DecisionId, approval: Option<ApprovalId>, parameters: Parameters, at: Time)
    : Option<Denial>
    requires d in b.decisions
  {
    if !b.decisions[d].decision.approvalRequired then (if approval.Some? then Some(ApprovalUnexpected) else None)
    else if approval.None? then Some(ApprovalRequired)
    else
      var p := approval.value;
      if p !in b.approvals || b.approvals[p].decision != d then Some(ApprovalInvalid)
      else if !b.approvals[p].status.Approved? then Some(ApprovalNotApproved)
      else if b.approvals[p].expires <= at then Some(ApprovalLapsed)
      else if b.approvals[p].parameters != parameters then Some(ParametersChanged)
      else if UsesApproval(b, p) then Some(ApprovalConsumed)
      else None
  }

  // ----- Actions ---------------------------------------------------------------------------------------------------

  /** What an idempotent retry has to repeat. */
  predicate SameRequest(r: Request, d: DecisionId, approval: Option<ApprovalId>, parameters: Parameters, details: nat) {
    r.decision == d && r.approval == approval && r.parameters == parameters && r.details == details
  }

  /** `valid` is the answer of the two capability checks, `holder` that of `get_by_idempotency_key`, `a` a fresh
      id. */
  function CreateAction(b: Book, a: ActionId, d: DecisionId, approval: Option<ApprovalId>, parameters: Parameters,
                        details: nat, key: nat, valid: bool, holder: Option<ActionId>, at: Time, now: Moment): Outcome
  {
    if d !in b.decisions then Refused(DecisionNotFound)
    else
      var s := b.decisions[d];
      if !s.decision.allowed then Refused(PolicyDenied)
      else if !valid then Refused(ParametersInvalid)
      else if holder.Some? then
        if !HasKey(b, holder.value, s.environment, key) then Refused(NotOffered)
        else if SameRequest(b.requests[holder.value], d, approval, parameters, details) then Replayed(holder.value)
        else Refused(IdempotencyConflict)
      else if KeyTaken(b, s.environment, key) then Refused(NotOffered)
      else if UsesDecision(b, d) then Refused(AuthorizationConsumed)
      else match ApprovalError(b, d, approval, parameters, at)
        case Some(denial) => Refused(denial)
        case None =>
          var current := Authorize(b, s, now);
          if current.None? then Refused(PolicyRuleChanged)
          else if !current.value.allowed || current.value.approvalRequired != s.decision.approvalRequired
          then Refused(RevalidationFailed)
          else if a in b.requests then Refused(NotOffered)
          else Accepted(b.(requests := b.requests[a :=
                 Request(d, approval, s.environment, s.incident, parameters, details, key, RequestReady, 1)]))
  }

  function CancelAction(b: Book, a: ActionId, expectedVersion: nat): Outcome {
    if a !in b.requests then Refused(RequestNotFound)
    else if b.requests[a].version != expectedVersion then Refused(RequestVersionConflict)
    else if !b.requests[a].status.RequestReady? then Refused(RequestNotCancellable)
    else Accepted(b.(requests := b.requests[a :=
           b.requests[a].(status := RequestCancelled, version := expectedVersion + 1)]))
  }

  // ----- The invariant -----------------------------------------------------------------------------------------------

  /** An approval belongs to an allowed decision that asks for one; its parameters differ from the requested ones
      on editable keys only. */
  ghost predicate ApprovalOk(b: Book, p: ApprovalId)
    requires p in b.approvals
  {
    var a := b.approvals[p];
    && a.decision in b.decisions
    && b.decisions[a.decision].decision.allowed && b.decisions[a.decision].decision.approvalRequired
    && OnlyEdited(a)
  }

  ghost predicate OnlyEdited(a: Approval) {
    forall k :: k !in a.editable ==>
      (k in a.parameters <==> k in a.requested) && (k in a.requested ==> a.parameters[k] == a.requested[k])
  }

  /** An action rests on an allowed decision and, if that asks for one, on its approved approval with exactly the
      approved parameters. */
  ghost predicate RequestOk(b: Book, a: ActionId)
    requires a in b.requests
  {
    var r := b.requests[a];
    && r.decision in b.decisions && b.decisions[r.decision].decision.allowed
    && r.incident == b.decisions[r.decision].incident
    && (r.approval.Some? <==> b.decisions[r.decision].decision.approvalRequired)
    && (r.approval.Some? ==>
          var p := r.approval.value;
          && p in b.approvals && b.approvals[p].decision == r.decision
          && b.approvals[p].status.Approved? && b.approvals[p].parameters == r.parameters)
  }

  predicate Apart(r: Request, s: Request) {
    && r.decision != s.decision
    && (r.approval.Some? ==> r.approval != s.approval)
    && (r.environment == s.environment ==> r.key != s.key)
  }

  /** No decision, approval or idempotency key is used twice, and no decision has two approvals. */
  ghost predicate SingleUse(b: Book) {
    && (forall a, c | a in b.requests && c in b.requests && a != c :: Apart(b.requests[a], b.requests[c]))
    && (forall p, q | p in b.approvals && q in b.approvals && p != q ::
          b.approvals[p].decision != b.approvals[q].decision)
  }

  ghost predicate Inv(b: Book) {
    && Keyed(b.rules) && SingleUse(b)
    && (forall p :: p in b.approvals ==> ApprovalOk(b, p))
    && (forall a :: a in b.requests ==> RequestOk(b, a))
  }

  // ----- Steps -----------------------------------------------------------------------------------------------------

  datatype Step =
    | RuleCreation(rule: Rule)
    | RuleUpdate(expected: nat, rule: Rule)
    | Evaluation(d: DecisionId, environment: nat, incident: IncidentId, t: Target, list: seq<Rule>, now: Moment)
    | ApprovalCreation(p: ApprovalId, d: DecisionId, requester: nat, expires: Time, parameters: Parameters,
                       editable: set<nat>)
    | ApprovalDecision(p: ApprovalId, approve: bool, expected: nat, edits: Parameters, decider: Option<nat>,
                       list: seq<Rule>, at: Time, now: Moment)
    | ActionCreation(a: ActionId, d: DecisionId, approval: Option<ApprovalId>, parameters: Parameters, details: nat,
                     key: nat, valid: bool, holder: Option<ActionId>, at: Time, now: Moment)
    | ActionCancellation(a: ActionId, expected: nat)

  function Apply(b: Book, s: Step): Outcome {
    match s
    case RuleCreation(rule) => CreateRule(b, rule)
    case RuleUpdate(expected, rule) => UpdateRule(b, expected, rule)
    case Evaluation(d, environment, incident, t, list, now) => Evaluate(b, d, environment, incident, t, list, now)
    case ApprovalCreation(p, d, requester, expires, parameters, editable) =>
      CreateApproval(b, p, d, requester, expires, parameters, editable)
    case ApprovalDecision(p, approve, expected, edits, decider, list, at, now) =>
      DecideApproval(b, p, approve, expected, edits, decider, list, at, now)
    case ActionCreation(a, d, approval, parameters, details, key, valid, holder, at, now) =>
      CreateAction(b, a, d, approval, parameters, details, key, valid, holder, at, now)
    case ActionCancellation(a, expected) => CancelAction(b, a, expected)
  }

  function Next(b: Book, s: Step): Book {
    After(b, Apply(b, s))
  }

  function State(steps: seq<Step>): Book {
    if steps == [] then Book(map[], map[], map[], map[]) else Next(State(steps[..|steps|-1]), steps[|steps|-1])
  }

  /** A pending approval may be resolved, with edits on editable keys. */
  lemma ResolutionKeeps(b: Book, p: ApprovalId, a': Approval)
    requires Inv(b) && p in b.approvals && b.approvals[p].status.Pending?
    requires a'.decision == b.approvals[p].decision && OnlyEdited(a')
    ensures Inv(b.(approvals := b.approvals[p := a']))
  {
    hide OnlyEdited, Apart;
    var b' := b.(approvals := b.approvals[p := a']);
    forall q | q in b'.approvals ensures ApprovalOk(b', q) {
      assert ApprovalOk(b, q);
    }
    forall a | a in b'.requests ensures RequestOk(b', a) {
      assert RequestOk(b, a);
    }
  }

  lemma ApprovalDecisionKeeps(b: Book, p: ApprovalId, approve: bool, expected: nat, edits: Parameters,
                              decider: Option<nat>, list: seq<Rule>, at: Time, now: Moment)
    requires Inv(b)
    ensures Inv(After(b, DecideApproval(b, p, approve, expected, edits, decider, list, at, now)))
  {
    hide Inv, Decide;
    if DecideApproval(b, p, approve, expected, edits, decider, list, at, now).Accepted? {
      var a := b.approvals[p];
      assert OnlyEdited(a) by { ApprovalFacts(b, p); }
      ResolutionKeeps(b, p, Resolved(a, ApprovalExpired));
      if edits.Keys <= a.editable {
        ResolutionKeeps(b, p, Resolved(a.(parameters := a.parameters + edits), if approve then Approved else Rejected));
      }
    }
  }

  lemma ApprovalFacts(b: Book, p: ApprovalId)
    requires Inv(b) && p in b.approvals
    ensures ApprovalOk(b, p)
  {
  }

  lemma ApprovalCreationKeeps(b: Book, p: ApprovalId, d: DecisionId, requester: nat, expires: Time,
                              parameters: Parameters, editable: set<nat>)
    requires Inv(b)
    ensures Inv(After(b, CreateApproval(b, p, d, requester, expires, parameters, editable)))
  {
    var b' := After(b, CreateApproval(b, p, d, requester, expires, parameters, editable));
    forall q | q in b'.approvals ensures ApprovalOk(b', q) {
      assert q in b.approvals ==> ApprovalOk(b, q);
    }
    forall a | a in b'.requests ensures RequestOk(b', a) {
      assert RequestOk(b, a);
    }
  }

  lemma ActionCreationKeeps(b: Book, a: ActionId, d: DecisionId, approval: Option<ApprovalId>, parameters: Parameters,
                            details: nat, key: nat, valid: bool, holder: Option<ActionId>, at: Time, now: Moment)
    requires Inv(b)
    ensures Inv(After(b, CreateAction(b, a, d, approval, parameters, details, key, valid, holder, at, now)))
  {
    hide Authorize, HasKey, SameRequest;
    var b' := After(b, CreateAction(b, a, d, approval, parameters, details, key, valid, holder, at, now));
    forall p | p in b'.approvals ensures ApprovalOk(b', p) {
      assert ApprovalOk(b, p);
    }
    forall c | c in b'.requests ensures RequestOk(b', c) {
      assert c in b.requests ==> RequestOk(b, c);
    }
  }

  lemma RulesKeep(b: Book, rules: map<RuleId, Rule>)
    requires Inv(b) && Keyed(rules)
    ensures Inv(b.(rules := rules))
  {
    hide OnlyEdited, Apart;
    var b' := b.(rules := rules);
    forall p | p in b'.approvals ensures ApprovalOk(b', p) { assert ApprovalOk(b, p); }
    forall a | a in b'.requests ensures RequestOk(b', a) { assert RequestOk(b, a); }
  }

  lemma DecisionKeeps(b: Book, d: DecisionId, s: Snapshot)
    requires Inv(b) && d !in b.decisions
    ensures Inv(b.(decisions := b.decisions[d := s]))
  {
    hide OnlyEdited, Apart;
    var b' := b.(decisions := b.decisions[d := s]);
    forall p | p in b'.approvals ensures ApprovalOk(b', p) { assert ApprovalOk(b, p); }
    forall a | a in b'.requests ensures RequestOk(b', a) { assert RequestOk(b, a); }
  }

  lemma CancellationKeeps(b: Book, a: ActionId, expected: nat)
    requires Inv(b)
    ensures Inv(After(b, CancelAction(b, a, expected)))
  {
    hide OnlyEdited;
    var b' := After(b, CancelAction(b, a, expected));
    forall p | p in b'.approvals ensures ApprovalOk(b', p) { assert ApprovalOk(b, p); }
    forall c | c in b'.requests ensures RequestOk(b', c) { assert RequestOk(b, c); }
  }

  /** Every step keeps authorisations single-use and rightly founded. */
  lemma StepKeeps(b: Book, s: Step)
    requires Inv(b)
    ensures Inv(Next(b, s))
  {
    hide Inv, DecideApproval, CreateApproval, CreateAction, CancelAction, Policies.Evaluate;
    match s
    case RuleCreation(rule) => KeyedRules(b); RulesKeep(b, if rule.id in b.rules then b.rules else Next(b, s).rules);
    case RuleUpdate(expected, rule) => KeyedRules(b); RulesKeep(b, Next(b, s).rules);
    case Evaluation(d, environment, incident, t, list, now) =>
      if Apply(b, s).Accepted? { DecisionKeeps(b, d, Next(b, s).decisions[d]); }
    case ApprovalCreation(p, d, requester, expires, parameters, editable) =>
      ApprovalCreationKeeps(b, p, d, requester, expires, parameters, editable);
    case ApprovalDecision(p, approve, expected, edits, decider, list, at, now) =>
      ApprovalDecisionKeeps(b, p, approve, expected, edits, decider, list, at, now);
    case ActionCreation(a, d, approval, parameters, details, key, valid, holder, at, now) =>
      ActionCreationKeeps(b, a, d, approval, parameters, details, key, valid, holder, at, now);
    case ActionCancellation(a, expected) => CancellationKeeps(b, a, expected);
  }

  lemma KeyedRules(b: Book)
    requires Inv(b)
    ensures Keyed(b.rules)
  {
  }

  /** Single-use authorisation: in every reachable state, actions map injectively to allowed decisions and to
      approved approvals of those decisions with exactly the approved parameters, which differ from the requested
      ones on editable keys only. */
  lemma {:induction false} Reachable(steps: seq<Step>)
    ensures Inv(State(steps))
  {
    hide Inv, Next;
    EmptyIsRight();
    if steps != [] {
      Reachable(steps[..|steps|-1]);
      StepKeeps(State(steps[..|steps|-1]), steps[|steps|-1]);
    }
  }

  lemma EmptyIsRight()
    ensures Inv(Book(map[], map[], map[], map[]))
  {
  }

  /** An action's decision never makes a second one: whatever a later creation asks for under that decision, it
      changes nothing, and it is answered with the action only if it repeats the first request and its key. */
  lemma CreationHappensOnce(steps: seq<Step>, a: ActionId, s: Step)
    requires a in State(steps).requests && s.ActionCreation? && s.d == State(steps).requests[a].decision
    ensures var o, r := Apply(State(steps), s), State(steps).requests[a];
            && Next(State(steps), s) == State(steps)
            && (o.Replayed? ==> o.action == a && s.key == r.key
                                && SameRequest(r, s.d, s.approval, s.parameters, s.details))
  {
    hide State, Authorize, ApprovalError;
    var b := State(steps);
    Reachable(steps);
    assert RequestOk(b, a);
    assert UsesDecision(b, s.d);
  }

  // ----- When an action is created ---------------------------------------------------------------------------

  /** Either no approval is asked for and none is given, or the given one is the decision's own, approved, unexpired,
      unused, and for exactly these parameters. */
  predicate Covers(b: Book, d: DecisionId, approval: Option<ApprovalId>, parameters: Parameters, at: Time)
    requires d in b.decisions
  {
    match approval
    case None => !b.decisions[d].decision.approvalRequired
    case Some(p) =>
      && b.decisions[d].decision.approvalRequired
      && p in b.approvals && b.approvals[p].decision == d && b.approvals[p].status.Approved?
      && at < b.approvals[p].expires && b.approvals[p].parameters == parameters
      && forall c :: c in b.requests ==> b.requests[c].approval != Some(p)
  }

  /** The decision's rule is as it was, enabled, and allows the target with its current count on the same terms. */
  predicate StillAllowed(b: Book, s: Snapshot, now: Moment) {
    && s.decision.rule.Some?
    && var i := s.decision.rule.value;
       && i in b.rules && b.rules[i].enabled && s.decision.version == Some(b.rules[i].version)
       && var current := Decide([b.rules[i]], s.target, now, _ => Some(Count(b, s.incident, i)));
          current.allowed && current.approvalRequired == s.decision.approvalRequired
  }

  /** An action is created if and only if its decision allowed it, is unused and still stands, its approval covers it,
      and its key is new. */
  lemma CreationIsAccepted(b: Book, a: ActionId, d: DecisionId, approval: Option<ApprovalId>, parameters: Parameters,
                           details: nat, key: nat, valid: bool, holder: Option<ActionId>, at: Time, now: Moment)
    ensures CreateAction(b, a, d, approval, parameters, details, key, valid, holder, at, now).Accepted? <==>
            && valid && holder.None? && a !in b.requests
            && d in b.decisions && b.decisions[d].decision.allowed
            && (forall c :: c in b.requests ==>
                  b.requests[c].decision != d
                  && (b.requests[c].environment == b.decisions[d].environment ==> b.requests[c].key != key))
            && Covers(b, d, approval, parameters, at) && StillAllowed(b, b.decisions[d], now)
  {
    hide Decide;
  }

  // ----- Who approved an action -----------------------------------------------------------------------------

  /** Nothing about an approval's request changes. */
  predicate SameRequested(a: Approval, a': Approval) {
    && a'.decision == a.decision && a'.requestedBy == a.requestedBy && a'.expires == a.expires
    && a'.requested == a.requested && a'.editable == a.editable
  }

  /** A current decision over the list allows the target, subject to approval. */
  predicate StillAsksApproval(b: Book, d: DecisionId, list: seq<Rule>, now: Moment) {
    d in b.decisions
    && var current := Decide(list, b.decisions[d].target, now, _ => None);
       current.allowed && current.approvalRequired
  }

  /** Before its expiry a pending approval becomes what it was decided to be, never by its requester, with the edits
      applied; from its expiry on it expires whatever was asked. Approval needs a policy that still asks for it. */
  ghost predicate ApprovalSettled(b: Book, b': Book, p: ApprovalId, approve: bool, edits: Parameters,
                                  actor: Option<nat>, list: seq<Rule>, at: Time, now: Moment) {
    && p in b.approvals && p in b'.approvals && b' == b.(approvals := b'.approvals)
    && b'.approvals == b.approvals[p := b'.approvals[p]]
    && var a, a' := b.approvals[p], b'.approvals[p];
       && a.status.Pending? && SameRequested(a, a') && a'.version == a.version + 1
       && (a'.status.Approved? <==> approve && at < a.expires)
       && (a'.status.Rejected? <==> !approve && at < a.expires)
       && (a'.status.ApprovalExpired? <==> a.expires <= at)
       && (at < a.expires ==> actor != Some(a.requestedBy) && edits.Keys <= a.editable)
       && (a'.status.Approved? ==> StillAsksApproval(b, a.decision, list, now))
       && (forall k :: (k in a'.parameters <==> k in a.parameters || (at < a.expires && k in edits))
                       && (k in a'.parameters ==>
                             a'.parameters[k] == if at < a.expires && k in edits then edits[k] else a.parameters[k]))
  }

  lemma DecisionSettles(b: Book, p: ApprovalId, approve: bool, version: nat, edits: Parameters, actor: Option<nat>,
                        list: seq<Rule>, at: Time, now: Moment)
    ensures var o := DecideApproval(b, p, approve, version, edits, actor, list, at, now);
            o.Accepted? ==> ApprovalSettled(b, o.book, p, approve, edits, actor, list, at, now)
  {
    hide Decide;
  }

  /** The step approves p: before the expiry, not by the requester, under a policy that still asks for approval. */
  ghost predicate Approves(b: Book, s: Step, p: ApprovalId) {
    && s.ApprovalDecision? && s.p == p && s.approve && Apply(b, s).Accepted?
    && p in b.approvals && b.approvals[p].status.Pending? && s.at < b.approvals[p].expires
    && s.decider != Some(b.approvals[p].requestedBy)
    && StillAsksApproval(b, b.approvals[p].decision, s.list, s.now)
  }

  predicate IsApproved(b: Book, p: ApprovalId) {
    p in b.approvals && b.approvals[p].status.Approved?
  }

  /** An approval is never changed again once it is approved, and becomes approved only by such a step. */
  lemma OneStepOfApproval(b: Book, s: Step, p: ApprovalId)
    ensures IsApproved(b, p) ==> p in Next(b, s).approvals && Next(b, s).approvals[p] == b.approvals[p]
    ensures IsApproved(Next(b, s), p) && !IsApproved(b, p) ==> Approves(b, s, p)
  {
    hide Decide, Policies.Evaluate, ApprovalError, Authorize, ApprovalSettled, StillAsksApproval;
    if s.ApprovalDecision? {
      hide DecideApproval;
      DecisionSettles(b, s.p, s.approve, s.expected, s.edits, s.decider, s.list, s.at, s.now);
      SettledFacts(b, s, p);
    }
  }

  lemma SettledFacts(b: Book, s: Step, p: ApprovalId)
    requires s.ApprovalDecision?
    requires Apply(b, s).Accepted? ==>
               ApprovalSettled(b, Next(b, s), s.p, s.approve, s.edits, s.decider, s.list, s.at, s.now)
    ensures IsApproved(b, p) ==> p in Next(b, s).approvals && Next(b, s).approvals[p] == b.approvals[p]
    ensures IsApproved(Next(b, s), p) && !IsApproved(b, p) ==> Approves(b, s, p)
  {
    hide DecideApproval, StillAsksApproval;
  }

  /** The step k of a run approved p, and left the row as it is at the end. */
  ghost predicate ApprovedAt(steps: seq<Step>, k: nat, p: ApprovalId)
    requires k < |steps|
  {
    && Approves(State(steps[..k]), steps[k], p) && p in State(steps[..k+1]).approvals
    && IsApproved(State(steps), p) && State(steps[..k+1]).approvals[p] == State(steps).approvals[p]
  }

  lemma {:induction false} ApprovalsWereGiven(steps: seq<Step>, p: ApprovalId) returns (k: nat)
    requires IsApproved(State(steps), p)
    ensures k < |steps| && ApprovedAt(steps, k, p)
  {
    hide Next, Approves;
    var n := |steps| - 1;
    var before := State(steps[..n]);
    OneStepOfApproval(before, steps[n], p);
    if IsApproved(before, p) {
      k := ApprovalsWereGiven(steps[..n], p);
      assert steps[..n][..k] == steps[..k] && steps[..n][..k+1] == steps[..k+1];
    } else {
      k := n;
      assert steps[..n+1] == steps;
    }
  }

  /** Over whole runs: the approval behind an action was given by such a step, for exactly the action's parameters. */
  lemma ActionsWereApproved(steps: seq<Step>, a: ActionId) returns (k: nat)
    requires a in State(steps).requests && State(steps).requests[a].approval.Some?
    ensures k < |steps| && ApprovedAt(steps, k, State(steps).requests[a].approval.value)
    ensures State(steps).approvals[State(steps).requests[a].approval.value].parameters
            == State(steps).requests[a].parameters
  {
    hide State, Approves;
    Reachable(steps);
    assert RequestOk(State(steps), a);
    k := ApprovalsWereGiven(steps, State(steps).requests[a].approval.value);
  }

  // ----- Quotas ----------------------------------------------------------------------------------------------------

  lemma CountAfterCreation(b: Book, a: ActionId, r: Request, incident: IncidentId, rule: RuleId)
    requires a !in b.requests && r.decision in b.decisions
    ensures var b' := b.(requests := b.requests[a := r]);
            Count(b', incident, rule)
            == Count(b, incident, rule)
               + (if r.incident == incident && b.decisions[r.decision].decision.rule == Some(rule) then 1 else 0)
  {
    var b' := b.(requests := b.requests[a := r]);
    if r.incident == incident && b.decisions[r.decision].decision.rule == Some(rule) {
      assert Counted(b', incident, rule) == Counted(b, incident, rule) + {a};
    } else {
      assert Counted(b', incident, rule) == Counted(b, incident, rule);
    }
  }

  lemma SameCount(b: Book, b': Book, incident: IncidentId, rule: RuleId)
    requires b'.requests.Keys == b.requests.Keys
    requires forall a :: a in b.requests ==>
               && b'.requests[a].incident == b.requests[a].incident && b'.requests[a].decision == b.requests[a].decision
               && b.requests[a].decision in b.decisions && b.requests[a].decision in b'.decisions
               && b'.decisions[b.requests[a].decision] == b.decisions[b.requests[a].decision]
    ensures Count(b', incident, rule) == Count(b, incident, rule)
  {
    assert Counted(b', incident, rule) == Counted(b, incident, rule);
  }

  /** Only the creation of an action raises a count: evaluations, approvals, rule updates and cancellations leave
      it alone. */
  lemma OnlyCreationCounts(b: Book, s: Step, incident: IncidentId, rule: RuleId)
    requires Inv(b) && !(s.ActionCreation? && Apply(b, s).Accepted?)
    ensures Count(Next(b, s), incident, rule) == Count(b, incident, rule)
  {
    hide Decide, Policies.Evaluate, Count, CreateAction;
    forall a | a in b.requests ensures b.requests[a].decision in b.decisions { assert RequestOk(b, a); }
    SameCount(b, Next(b, s), incident, rule);
  }

  /** An accepted creation counts its action once, for its incident and rule, and leaves the count within the
      rule's current limit. */
  lemma CreationStaysWithinLimit(b: Book, s: Step)
    requires Inv(b) && s.ActionCreation? && Apply(b, s).Accepted?
    ensures s.d in b.decisions && b.decisions[s.d].decision.rule.Some?
    ensures var i, incident, b' := b.decisions[s.d].decision.rule.value, b.decisions[s.d].incident, Next(b, s);
            && i in b'.rules && b'.rules[i].enabled
            && Count(b', incident, i) == Count(b, incident, i) + 1
            && (b'.rules[i].limit.Some? ==> Count(b', incident, i) <= b'.rules[i].limit.value)
            && forall j, other :: j != i || other != incident ==> Count(b', other, j) == Count(b, other, j)
  {
    hide ApprovalError, Count, Counted;
    var b' := Next(b, s);
    var incident := b.decisions[s.d].incident;
    var i := b.decisions[s.d].decision.rule.value;
    CountAfterCreation(b, s.a, b'.requests[s.a], incident, i);
    forall j, other | j != i || other != incident ensures Count(b', other, j) == Count(b, other, j) {
      CountAfterCreation(b, s.a, b'.requests[s.a], other, j);
    }
    assert Decide([b.rules[i]], b.decisions[s.d].target, s.now, _ => Some(Count(b, incident, i))).allowed;
  }

  /** While a rule's limit is never changed, no incident ever has more actions under it than the limit, whatever
      is cancelled, retried or re-evaluated. */
  lemma {:induction false} CountStaysWithinLimit(steps: seq<Step>, incident: IncidentId, i: RuleId, limit: nat)
    requires forall k :: 0 <= k <= |steps| ==>
               (i in State(steps[..k]).rules ==> State(steps[..k]).rules[i].limit == Some(limit))
    ensures Count(State(steps), incident, i) <= limit
  {
    hide Count, Apply, Next;
    if steps == [] {
      NothingCounted(incident, i);
    } else {
      var n := |steps| - 1;
      var b, s := State(steps[..n]), steps[n];
      forall k | 0 <= k <= n
        ensures i in State(steps[..n][..k]).rules ==> State(steps[..n][..k]).rules[i].limit == Some(limit)
      {
        assert steps[..n][..k] == steps[..k];
      }
      CountStaysWithinLimit(steps[..n], incident, i, limit);
      Reachable(steps[..n]);
      assert steps[..|steps|] == steps;
      if s.ActionCreation? && Apply(b, s).Accepted? {
        CreationStaysWithinLimit(b, s);
      } else {
        OnlyCreationCounts(b, s, incident, i);
      }
    }
  }

  lemma NothingCounted(incident: IncidentId, i: RuleId)
    ensures Count(State([]), incident, i) == 0
  {
    assert Counted(State([]), incident, i) == {};
  }
}
