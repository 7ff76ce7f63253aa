/** The published investigation graphs (backend/app/domain/investigations/graph_registry.py)
    and the routes the executor adds to them. */
module InvestigationGraph {
  import opened Common

  datatype GraphVersion = GraphV1 | GraphV2

  datatype Node =
    | LoadIncident | LoadTopology | LoadRecentChanges | ClassifyComplexity | CreatePlan
    | SelectNextStep | RunInvestigator | AssessEvidence | ProposeAction
    | MaybeReplan | EscalateOrFinish

  /** `next_action`; `Unset` is Python's None. A handler can only answer the first four. */
  datatype NextAction = Unset | Continue | Finish | Pause | NoProgress | MaxIterations

  /** A completed node key, "<node>:<iteration>". */
  datatype Key = Key(node: Node, iteration: nat)

  predicate Registered(g: GraphVersion, n: Node) {
    n.ProposeAction? ==> g.GraphV2?
  }

  /** Nodes that always run in iteration 0. */
  predicate IsContext(n: Node) {
    Rank(n) < 5
  }

  /** Position of a node in the order both graphs list their nodes in. */
  function Rank(n: Node): nat {
    match n
    case LoadIncident => 0
    case LoadTopology => 1
    case LoadRecentChanges => 2
    case ClassifyComplexity => 3
    case CreatePlan => 4
    case SelectNextStep => 5
    case RunInvestigator => 6
    case AssessEvidence => 7
    case ProposeAction => 8
    case MaybeReplan => 9
    case EscalateOrFinish => 10
  }

  /** The next node in the listed order; the last node stays where it is. */
  function Following(g: GraphVersion, n: Node): Node {
    match n
    case LoadIncident => LoadTopology
    case LoadTopology => LoadRecentChanges
    case LoadRecentChanges => ClassifyComplexity
    case ClassifyComplexity => CreatePlan
    case CreatePlan => SelectNextStep
    case SelectNextStep => RunInvestigator
    case RunInvestigator => AssessEvidence
    case AssessEvidence => if g.GraphV1? then MaybeReplan else ProposeAction
    case ProposeAction => MaybeReplan
    case MaybeReplan => EscalateOrFinish
    case EscalateOrFinish => EscalateOrFinish
  }

  /** The edge taken after a node, given the state's `next_action`; None is END. */
  function Route(g: GraphVersion, n: Node, next: NextAction): Option<Node> {
    match n
    case RunInvestigator => if next.Pause? then None else Some(Following(g, n))
    case ProposeAction => if next.Pause? then None else Some(Following(g, n))
    case MaybeReplan =>
      if next.Continue? then Some(SelectNextStep)
      else if next.Pause? || next.NoProgress? || next.MaxIterations? then None
      else Some(EscalateOrFinish)
    case EscalateOrFinish => None
    case _ => Some(Following(g, n))
  }
}
