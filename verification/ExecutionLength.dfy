/** How many nodes one execution of the graph visits (backend/app/services/agent_runtime.py), against the number of
    steps the executor lets its graph library take. */
module ExecutionLength {
  import opened Common
  import opened InvestigationGraph
  import opened AgentRuntime

  /** The recursion limit `execute` configures. */
  const RECURSION_LIMIT := 1000

  /** The nodes of one pass through the loop. */
  function PerPass(g: GraphVersion): nat {
    if g.GraphV1? then 4 else 5
  }

  /** The nodes still to visit from a node of the loop on, if every iteration is used; the last node comes on top. */
  function LoopVisits(cfg: Config, n: Node, i: nat): nat
    requires i < cfg.maxIterations && 5 <= Rank(n) <= 9
  {
    (cfg.maxIterations - i - 1) * PerPass(cfg.graph)
    + (if cfg.graph.GraphV1? && !n.MaybeReplan? then 9 - Rank(n) else 10 - Rank(n))
  }

  lemma FreshStep(cfg: Config, h: Handler, n: Node, st: State) returns (ck: Checkpoint)
    requires Fresh(cfg, n, st) && Bounded(st)
    ensures Good(cfg, ck) && ck.node == n && ck.iteration == st.iteration && Bounded(StateAfter(ck))
    ensures Visit(cfg, h, n, st).Executed? && ck == Visit(cfg, h, n, st).checkpoint
    ensures var m := Route(cfg.graph, n, ck.next);
            && (m.Some? ==> Fresh(cfg, m.value, StateAfter(ck)))
            && Walk(cfg, h, n, st).visits == 1 + if m.None? then 0 else Walk(cfg, h, m.value, StateAfter(ck)).visits
  {
    hide Through, Before, Good, Fresh;
    FreshVisit(cfg, h, n, st);
    ck := Visit(cfg, h, n, st).checkpoint;
    GoodIsBounded(cfg, ck, false);
    GoodContinues(cfg, ck);
  }

  lemma {:induction false} LoopIsBounded(cfg: Config, h: Handler, n: Node, st: State)
    requires Fresh(cfg, n, st) && Bounded(st) && 5 <= Rank(n)
    ensures Walk(cfg, h, n, st).visits <= 1 + if n.EscalateOrFinish? then 0 else LoopVisits(cfg, n, st.iteration)
    decreases cfg.maxIterations - st.iteration, 10 - Rank(n)
  {
    hide Walk, Through, Before, Bounded, Visit;
    var ck := FreshStep(cfg, h, n, st);
    var m := Route(cfg.graph, n, ck.next);
    if m.Some? { LoopIsBounded(cfg, h, m.value, StateAfter(ck)); }
  }

  lemma {:induction false} ContextIsBounded(cfg: Config, h: Handler, n: Node, st: State)
    requires Fresh(cfg, n, st) && Bounded(st) && IsContext(n)
    ensures Walk(cfg, h, n, st).visits <= 6 - Rank(n) + cfg.maxIterations * PerPass(cfg.graph)
    decreases 10 - Rank(n)
  {
    hide Walk, Through, Before, Good, Bounded, Visit;
    var ck := FreshStep(cfg, h, n, st);
    if n.CreatePlan? {
      LoopIsBounded(cfg, h, SelectNextStep, StateAfter(ck));
    } else {
      ContextIsBounded(cfg, h, Following(cfg.graph, n), StateAfter(ck));
    }
  }

  // ----- Handlers that use every iteration ------------------------------------------------------------------

  /** A handler that asks for another iteration as long as there is one, and for `last` in the last. */
  function Driven(cfg: Config, last: NextAction): Handler {
    (n: Node, i: nat, wanted: NextAction, done: seq<Key>) =>
      Answer(true, if n.MaybeReplan? && i + 1 >= cfg.maxIterations then last else Continue)
  }

  /** One node more if the handler finishes instead of running into the limit. */
  function LastNode(last: NextAction): nat {
    if last.Finish? then 1 else 0
  }

  lemma {:induction false} DrivenLoop(cfg: Config, last: NextAction, n: Node, st: State)
    requires Fresh(cfg, n, st) && Bounded(st) && cfg.noProgressLimit > 0 && 5 <= Rank(n) <= 9
    requires last.Continue? || last.Finish?
    ensures Walk(cfg, Driven(cfg, last), n, st).visits == LoopVisits(cfg, n, st.iteration) + LastNode(last)
    decreases cfg.maxIterations - st.iteration, 10 - Rank(n)
  {
    hide Walk, Through, Before, Good, Bounded;
    var ck := FreshStep(cfg, Driven(cfg, last), n, st);
    var m := Route(cfg.graph, n, ck.next);
    if m.Some? {
      if m.value.EscalateOrFinish? {
        var end := FreshStep(cfg, Driven(cfg, last), m.value, StateAfter(ck));
      } else {
        DrivenLoop(cfg, last, m.value, StateAfter(ck));
      }
    }
  }

  lemma {:induction false} DrivenContext(cfg: Config, last: NextAction, n: Node, st: State)
    requires Fresh(cfg, n, st) && Bounded(st) && cfg.noProgressLimit > 0 && IsContext(n)
    requires last.Continue? || last.Finish?
    ensures Walk(cfg, Driven(cfg, last), n, st).visits
            == 5 - Rank(n) + cfg.maxIterations * PerPass(cfg.graph) + LastNode(last)
    decreases 10 - Rank(n)
  {
    hide Walk, Through, Before, Good, Bounded, LastNode;
    var ck := FreshStep(cfg, Driven(cfg, last), n, st);
    if n.CreatePlan? {
      DrivenLoop(cfg, last, SelectNextStep, StateAfter(ck));
    } else {
      DrivenContext(cfg, last, Following(cfg.graph, n), StateAfter(ck));
    }
  }

  /** An execution that always continues visits the five context nodes and then four (graph-v1) or five (graph-v2)
      nodes in each iteration; one that finishes in the last iteration visits the last node too. */
  lemma RestlessRunsAreThisLong(cfg: Config, last: NextAction)
    requires cfg.maxIterations > 0 && cfg.noProgressLimit > 0 && (last.Continue? || last.Finish?)
    ensures Walk(cfg, Driven(cfg, last), LoadIncident, START).visits
            == 5 + cfg.maxIterations * PerPass(cfg.graph) + LastNode(last)
    ensures cfg.graph.GraphV2? && cfg.maxIterations == 200 && last.Continue?
            ==> Walk(cfg, Driven(cfg, last), LoadIncident, START).visits == 1005
  {
    hide Walk, Through;
    DrivenContext(cfg, last, LoadIncident, START);
  }

  /** The longest execution from the start, for limits of at least 1 as the settings demand: no handler visits more
      nodes, and one visits as many. */
  lemma LongestExecution(cfg: Config)
    requires cfg.maxIterations > 0 && cfg.noProgressLimit > 0
    ensures var longest := 6 + cfg.maxIterations * PerPass(cfg.graph);
            && (forall h: Handler :: Walk(cfg, h, LoadIncident, START).visits <= longest)
            && Walk(cfg, Driven(cfg, Finish), LoadIncident, START).visits == longest
  {
    hide Walk, Through;
    forall h: Handler ensures Walk(cfg, h, LoadIncident, START).visits <= 6 + cfg.maxIterations * PerPass(cfg.graph) {
      ContextIsBounded(cfg, h, LoadIncident, START);
    }
    RestlessRunsAreThisLong(cfg, Finish);
  }

  /** The recursion limit is enough for every handler if and only if the run allows at most 248 iterations of graph-v1
      or 198 of graph-v2; a run may ask for 200. */
  lemma RecursionLimitSuffices(cfg: Config)
    requires cfg.maxIterations > 0 && cfg.noProgressLimit > 0
    ensures (forall h: Handler :: Walk(cfg, h, LoadIncident, START).visits <= RECURSION_LIMIT)
            <==> cfg.maxIterations <= if cfg.graph.GraphV1? then 248 else 198
  {
    hide Walk, Driven;
    LongestExecution(cfg);
  }
}
