/** First-match policy decisions (backend/app/services/policies.py). */
module Policies {
  import opened Common

  type RuleId = nat
  datatype Effect = Allow | Deny

  /** An empty scope set means any value. */
  datatype Rule = Rule(
    id: RuleId,
    priority: int,
    created: Time,
    enabled: bool,
    effect: Effect,
    resources: set<ResourceId>,
    capabilities: set<nat>,
    autonomyLevels: set<nat>,
    riskLevels: set<nat>,
    approvalRequired: bool,
    days: set<nat>,
    start: Option<nat>,
    end: Option<nat>,
    limit: Option<nat>,
    version: nat)

  datatype Target = Target(resource: ResourceId, capability: nat, autonomy: nat, risk: nat)

  /** A clock reading as the maintenance window sees it. */
  datatype Moment = Moment(weekday: nat, minute: nat)

  datatype Reason = Matched | WindowClosed | LimitReached | DefaultDeny

  datatype Decision = Decision(
    allowed: bool,
    approvalRequired: bool,
    rule: Option<RuleId>,
    version: Option<nat>,
    effect: Option<Effect>,
    remaining: Option<nat>,
    reason: Reason)

  const DENIED := Decision(false, false, None, None, None, None, DefaultDeny)

  predicate Matches(r: Rule, t: Target) {
    && (r.resources == {} || t.resource in r.resources)
    && (r.capabilities == {} || t.capability in r.capabilities)
    && (r.autonomyLevels == {} || t.autonomy in r.autonomyLevels)
    && (r.riskLevels == {} || t.risk in r.riskLevels)
  }

  predicate InsideWindow(r: Rule, now: Moment) {
    r.start.None? || r.end.None?
    || ((r.days == {} || now.weekday in r.days) && r.start.value <= now.minute < r.end.value)
  }

  /** A limit is only looked at when the executions were counted. */
  predicate Exhausted(r: Rule, consumed: Option<nat>) {
    r.limit.Some? && consumed.Some? && r.limit.value <= consumed.value
  }

  predicate Permits(r: Rule, now: Moment, consumed: Option<nat>) {
    r.effect.Allow? && InsideWindow(r, now) && !Exhausted(r, consumed)
  }

  /** The decision of the rule that matched. */
  function Verdict(r: Rule, now: Moment, consumed: Option<nat>): Decision {
    var allowed := Permits(r, now, consumed);
    var left := if r.limit.None? || consumed.None? then None
                else if r.limit.value <= consumed.value then Some(0)
                else if allowed then Some(r.limit.value - consumed.value - 1)
                else Some(r.limit.value - consumed.value);
    Decision(allowed, allowed && r.approvalRequired, Some(r.id), Some(r.version), Some(r.effect), left,
             if r.effect.Allow? && !InsideWindow(r, now) then WindowClosed
             else if r.effect.Allow? && Exhausted(r, consumed) then LimitReached else Matched)
  }

  /** `_decide`: the verdict of the first rule that matches, or the default. `consumed` counts for each rule. */
  function Decide(rules: seq<Rule>, t: Target, now: Moment, consumed: RuleId -> Option<nat>): Decision {
    if rules == [] then DENIED
    else if Matches(rules[0], t) then Verdict(rules[0], now, consumed(rules[0].id))
    else Decide(rules[1..], t, now, consumed)
  }

  /** The loop of the code, over one count for all rules. */
  method DecideLoop(rules: seq<Rule>, t: Target, now: Moment, consumed: Option<nat>) returns (d: Decision)
    ensures d == Decide(rules, t, now, _ => consumed) && FromFirst(rules, t, d, now, consumed)
  {
    hide FromFirst;
    DecidesFromFirst(rules, t, now, consumed);
    for i := 0 to |rules|
      invariant Decide(rules, t, now, _ => consumed) == Decide(rules[i..], t, now, _ => consumed)
    {
      var rule := rules[i];
      assert rules[i..][0] == rule && rules[i..][1..] == rules[i+1..];
      if !Matches(rule, t) { continue; }
      var allowed := rule.effect == Allow;
      var reason := Matched;
      if allowed && !InsideWindow(rule, now) {
        allowed := false;
        reason := WindowClosed;
      }
      var remaining: Option<nat> := None;
      if rule.limit.Some? && consumed.Some? {
        var left := if rule.limit.value <= consumed.value then 0 else rule.limit.value - consumed.value;
        if allowed && left == 0 {
          allowed := false;
          reason := LimitReached;
        } else if allowed {
          left := left - 1;
        }
        remaining := Some(left);
      }
      return Decision(allowed, allowed && rule.approvalRequired, Some(rule.id), Some(rule.version), Some(rule.effect),
                      remaining, reason);
    }
    assert rules[|rules|..] == [];
    return DENIED;
  }

  // ----- The order of the rules ---------------------------------------------------------------------------

  /** Higher priority first, then the older rule, then the smaller id. */
  predicate Precedes(r: Rule, s: Rule) {
    || r.priority > s.priority
    || (r.priority == s.priority && r.created < s.created)
    || (r.priority == s.priority && r.created == s.created && r.id < s.id)
  }

  predicate Keyed(rules: map<RuleId, Rule>) {
    forall i :: i in rules ==> rules[i].id == i
  }

  /** The answer of `list_for_environment`: the enabled rules in order. */
  ghost predicate Listed(rules: map<RuleId, Rule>, list: seq<Rule>) {
    && (forall i, j :: 0 <= i < j < |list| ==> Precedes(list[i], list[j]))
    && (forall r :: r in list ==> r.id in rules && rules[r.id] == r && r.enabled)
    && (forall i :: i in rules && rules[i].enabled ==> rules[i] in list)
  }

  /** The enabled rule that matches and precedes every other enabled rule that matches. */
  predicate Decides(rules: map<RuleId, Rule>, t: Target, i: RuleId) {
    i in rules && rules[i].enabled && Matches(rules[i], t)
    && forall j :: j in rules && j != i && rules[j].enabled && Matches(rules[j], t) ==> Precedes(rules[i], rules[j])
  }

  lemma {:induction false} FirstMatch(list: seq<Rule>, t: Target, now: Moment, consumed: RuleId -> Option<nat>)
    returns (k: nat)
    ensures k <= |list| && forall i :: 0 <= i < k ==> !Matches(list[i], t)
    ensures k < |list| ==> Matches(list[k], t)
    ensures Decide(list, t, now, consumed)
            == if k < |list| then Verdict(list[k], now, consumed(list[k].id)) else DENIED
  {
    if list == [] || Matches(list[0], t) {
      k := 0;
    } else {
      k := FirstMatch(list[1..], t, now, consumed);
      k := k + 1;
    }
  }

  /** The decision is the verdict of the highest enabled rule that matches; without one it is the default. */
  lemma DecisionIsTheHighestMatch(rules: map<RuleId, Rule>, list: seq<Rule>, t: Target, now: Moment,
                                  consumed: RuleId -> Option<nat>)
    requires Keyed(rules) && Listed(rules, list)
    ensures var d := Decide(list, t, now, consumed);
            && (forall i :: Decides(rules, t, i) ==> d == Verdict(rules[i], now, consumed(i)))
            && (d.rule.Some? ==> Decides(rules, t, d.rule.value))
            && (d.rule.None? ==> d == DENIED && forall i :: i in rules && rules[i].enabled ==> !Matches(rules[i], t))
  {
    var k := FirstMatch(list, t, now, consumed);
    if k < |list| {
      assert list[k] in list;
      forall j | j in rules && j != list[k].id && rules[j].enabled && Matches(rules[j], t)
        ensures Precedes(list[k], rules[j])
      {
        var i :| 0 <= i < |list| && list[i] == rules[j];
      }
      assert Decides(rules, t, list[k].id);
    } else {
      forall i | i in rules && rules[i].enabled ensures !Matches(rules[i], t) {
        var j :| 0 <= j < |list| && list[j] == rules[i];
      }
    }
  }

  // ----- What a decision means, in the fields of the rule ------------------------------------------------------

  predicate Admits(scope: set<nat>, x: nat) {
    scope != {} ==> x in scope
  }

  /** Every scope of the rule that is not empty contains the target's value. */
  predicate Applies(r: Rule, t: Target) {
    && Admits(r.resources, t.resource) && Admits(r.capabilities, t.capability)
    && Admits(r.autonomyLevels, t.autonomy) && Admits(r.riskLevels, t.risk)
  }

  /** A window with a start and an end is open on its days, or on all days, from its start up to before its end. */
  ghost predicate WindowOpen(r: Rule, now: Moment) {
    forall start, end :: r.start == Some(start) && r.end == Some(end) ==>
      start <= now.minute && now.minute < end && (r.days != {} ==> now.weekday in r.days)
  }

  /** What is left of the limit, if there is one and the executions were counted. */
  function Left(r: Rule, consumed: Option<nat>): Option<nat> {
    match (r.limit, consumed)
    case (Some(limit), Some(used)) => Some(if used < limit then limit - used else 0)
    case _ => None
  }

  /** The decision follows from the rule: it allows exactly if the rule does, in an open window, with an execution left;
      it asks for approval exactly if it allows and the rule asks; it counts the execution it allows. */
  ghost predicate Justified(r: Rule, d: Decision, now: Moment, consumed: Option<nat>) {
    var left := Left(r, consumed);
    && d.rule == Some(r.id) && d.version == Some(r.version) && d.effect == Some(r.effect)
    && (d.allowed <==> r.effect.Allow? && WindowOpen(r, now) && left != Some(0))
    && (d.approvalRequired <==> d.allowed && r.approvalRequired)
    && (d.remaining.Some? <==> left.Some?)
    && (left.Some? ==> d.remaining.value + (if d.allowed then 1 else 0) == left.value)
    && (d.reason.WindowClosed? <==> r.effect.Allow? && !WindowOpen(r, now))
    && (d.reason.LimitReached? <==> r.effect.Allow? && WindowOpen(r, now) && left == Some(0))
    && (d.reason.Matched? <==> r.effect.Deny? || d.allowed)
  }

  lemma AppliesIsMatch(r: Rule, t: Target)
    ensures Applies(r, t) <==> Matches(r, t)
  {
  }

  lemma VerdictIsJustified(r: Rule, now: Moment, consumed: Option<nat>)
    ensures Justified(r, Verdict(r, now, consumed), now, consumed)
  {
    assert InsideWindow(r, now) <==> WindowOpen(r, now) by {
      if r.start.Some? && r.end.Some? {
        assert WindowOpen(r, now) ==> r.start.value <= now.minute;
      }
    }
  }

  /** The first rule that applies justifies the decision; without one it is the default denial. */
  ghost predicate FromFirst(rules: seq<Rule>, t: Target, d: Decision, now: Moment, consumed: Option<nat>) {
    if d.rule.None? then
      && (forall r :: r in rules ==> !Applies(r, t))
      && !d.allowed && !d.approvalRequired && d.reason.DefaultDeny? && d.remaining.None?
    else
      exists k :: 0 <= k < |rules| && Applies(rules[k], t) && (forall j :: 0 <= j < k ==> !Applies(rules[j], t))
                  && Justified(rules[k], d, now, consumed)
  }

  lemma DecidesFromFirst(rules: seq<Rule>, t: Target, now: Moment, consumed: Option<nat>)
    ensures FromFirst(rules, t, Decide(rules, t, now, _ => consumed), now, consumed)
  {
    hide Matches, Applies, Justified, Verdict;
    forall r ensures Applies(r, t) <==> Matches(r, t) {
      AppliesIsMatch(r, t);
    }
    var k := FirstMatch(rules, t, now, _ => consumed);
    if k < |rules| {
      VerdictIsJustified(rules[k], now, consumed);
      NamesItsRule(rules[k], now, consumed);
    } else {
      forall r | r in rules ensures !Applies(r, t) {
        var i :| 0 <= i < |rules| && rules[i] == r;
      }
    }
  }

  lemma NamesItsRule(r: Rule, now: Moment, consumed: Option<nat>)
    ensures Verdict(r, now, consumed).rule == Some(r.id)
  {
  }

  /** Among the enabled rules that apply, the one of highest priority, then the oldest, then the one of smallest id,
      justifies the decision; without one the decision is the default denial. */
  lemma DecisionMeans(rules: map<RuleId, Rule>, list: seq<Rule>, t: Target, now: Moment,
                      consumed: RuleId -> Option<nat>)
    requires Keyed(rules) && Listed(rules, list)
    ensures var d := Decide(list, t, now, consumed);
            match d.rule
            case None =>
              && (forall i :: i in rules && rules[i].enabled ==> !Applies(rules[i], t))
              && !d.allowed && !d.approvalRequired && d.reason.DefaultDeny?
              && d.version.None? && d.effect.None? && d.remaining.None?
            case Some(i) =>
              && i in rules && rules[i].enabled && Applies(rules[i], t)
              && (forall j :: j in rules && j != i && rules[j].enabled && Applies(rules[j], t) ==>
                    var r, s := rules[i], rules[j];
                    s.priority < r.priority
                    || (s.priority == r.priority
                        && (r.created < s.created || (r.created == s.created && i < j))))
              && Justified(rules[i], d, now, consumed(i))
  {
    hide Matches, Applies, Justified, Verdict;
    DecisionIsTheHighestMatch(rules, list, t, now, consumed);
    forall i | i in rules ensures Applies(rules[i], t) <==> Matches(rules[i], t) {
      AppliesIsMatch(rules[i], t);
    }
    var d := Decide(list, t, now, consumed);
    if d.rule.Some? { VerdictIsJustified(rules[d.rule.value], now, consumed(d.rule.value)); }
  }

  // ----- Evaluation in two passes ---------------------------------------------------------------------------

  /** `evaluate`: decide over all rules, lock the match, decide again over that one rule with its count. None if the
      locked rule is no longer the one that matched. */
  function Evaluate(rules: map<RuleId, Rule>, list: seq<Rule>, t: Target, now: Moment, count: RuleId -> nat)
    : Option<Decision>
  {
    var first := Decide(list, t, now, _ => None);
    if first.rule.None? then Some(first)
    else
      var i := first.rule.value;
      if i !in rules || !rules[i].enabled || Some(rules[i].version) != first.version then None
      else Some(Decide([rules[i]], t, now, _ => Some(count(i))))
  }

  /** The two passes equal one first-match decision over the list in which every rule is counted. */
  lemma EvaluateIsOneDecision(rules: map<RuleId, Rule>, list: seq<Rule>, t: Target, now: Moment, count: RuleId -> nat)
    requires Keyed(rules) && Listed(rules, list)
    ensures Evaluate(rules, list, t, now, count) == Some(Decide(list, t, now, (i: RuleId) => Some(count(i))))
  {
    var none: RuleId -> Option<nat> := (_: RuleId) => None;
    var counted: RuleId -> Option<nat> := (i: RuleId) => Some(count(i));
    var k := FirstMatch(list, t, now, none);
    var l := FirstMatch(list, t, now, counted);
    assert k == l;
    if k < |list| {
      assert list[k] in list;
      assert Decide([list[k]], t, now, _ => Some(count(list[k].id))) == Verdict(list[k], now, Some(count(list[k].id)));
    }
  }
}
