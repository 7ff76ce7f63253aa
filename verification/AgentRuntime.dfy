/** The crash-recoverable graph executor (backend/app/services/agent_runtime.py).

    `Walk` is one `execute`: it visits nodes from a start node, replays a visit whose key is already
    completed, and otherwise asks the handler and checkpoints. A crash keeps a prefix of the
    checkpoints; the next `execute` starts again at the entry node from the latest one. */
module AgentRuntime {
  import opened Common
  import opened InvestigationGraph

  datatype Config = Config(graph: GraphVersion, maxIterations: nat, noProgressLimit: nat)

  datatype State = State(iteration: nat, completed: seq<Key>, noProgress: nat, next: NextAction)

  datatype Checkpoint =
    Checkpoint(node: Node, iteration: nat, completed: seq<Key>, noProgress: nat, progressed: bool, next: NextAction)

  datatype Answer = Answer(progressed: bool, next: NextAction)

  /** A handler's answer is fixed by the node, the iteration, the requested action and what ran before. */
  type Handler = (Node, nat, NextAction, seq<Key>) -> Answer

  datatype Visited = Replayed(after: State) | Executed(checkpoint: Checkpoint, after: State)

  datatype Walked = Walked(trace: seq<Checkpoint>, final: State, visits: nat)

  // ----- One node, one walk ---------------------------------------------------------------

  function IterationOf(n: Node, st: State): nat {
    if IsContext(n) then 0 else st.iteration
  }

  /** The state a checkpoint leaves behind in the running graph. */
  function StateAfter(ck: Checkpoint): State {
    State(if ck.node.MaybeReplan? && ck.next.Continue? then ck.iteration + 1 else ck.iteration,
          ck.completed, ck.noProgress, ck.next)
  }

  /** The node callback. */
  function Visit(cfg: Config, h: Handler, n: Node, st: State): Visited {
    var iteration := IterationOf(n, st);
    var key := Key(n, iteration);
    if key in st.completed then
      Replayed(if n.MaybeReplan? && st.next.Continue? then st.(iteration := iteration + 1) else st)
    else
      var answer := h(n, iteration, st.next, st.completed);
      var noProgress :=
        if !n.MaybeReplan? then st.noProgress else if answer.progressed then 0 else st.noProgress + 1;
      var wanted := if answer.next.Unset? then st.next else answer.next;
      var next :=
        if n.MaybeReplan? && noProgress >= cfg.noProgressLimit then NoProgress
        else if n.MaybeReplan? && wanted.Continue? && iteration + 1 >= cfg.maxIterations then MaxIterations
        else wanted;
      var ck := Checkpoint(n, iteration, st.completed + [key], noProgress, answer.progressed, next);
      Executed(ck, State(if n.MaybeReplan? && next.Continue? then iteration + 1 else st.iteration,
                         ck.completed, noProgress, next))
  }

  /** All that termination needs: no completed key lies in a later iteration. */
  predicate Bounded(st: State) {
    forall k <- st.completed :: k.iteration <= st.iteration
  }

  /** Passes through the loop that can still start; a replay of `maybe_replan` adds one. */
  function Weight(cfg: Config, st: State): nat {
    (if st.iteration < cfg.maxIterations then cfg.maxIterations - st.iteration else 0)
    + (if Key(MaybeReplan, st.iteration) in st.completed then 1 else 0)
  }

  function Fuel(cfg: Config, n: Node, st: State): nat {
    if n.EscalateOrFinish? then 0 else 1 + Weight(cfg, st)
  }

  function Walk(cfg: Config, h: Handler, n: Node, st: State): (w: Walked)
    requires Bounded(st)
    decreases Fuel(cfg, n, st), 10 - Rank(n)
  {
    var v := Visit(cfg, h, n, st);
    var ran := if v.Executed? then [v.checkpoint] else [];
    match Route(cfg.graph, n, v.after.next)
    case None => Walked(ran, v.after, 1)
    case Some(m) =>
      var rest := Walk(cfg, h, m, v.after);
      Walked(ran + rest.trace, rest.final, rest.visits + 1)
  }

  /** One execute visits a number of nodes bounded by the iteration limit, whatever the handler answers. */
  lemma {:induction false} VisitsAreBounded(cfg: Config, h: Handler, n: Node, st: State)
    requires Bounded(st)
    ensures Walk(cfg, h, n, st).visits <= if n.EscalateOrFinish? then 1 else 11 - Rank(n) + 5 * Weight(cfg, st)
    decreases Fuel(cfg, n, st), 10 - Rank(n)
  {
    var v := Visit(cfg, h, n, st);
    match Route(cfg.graph, n, v.after.next)
    case None =>
    case Some(m) => VisitsAreBounded(cfg, h, m, v.after);
  }

  // ----- The closed form of the completed keys ----------------------------------------------

  /** The node before `n` in an uninterrupted run, with its iteration. */
  function Previous(g: GraphVersion, n: Node, i: nat): Key
    requires !n.LoadIncident?
  {
    match n
    case LoadTopology => Key(LoadIncident, 0)
    case LoadRecentChanges => Key(LoadTopology, 0)
    case ClassifyComplexity => Key(LoadRecentChanges, 0)
    case CreatePlan => Key(ClassifyComplexity, 0)
    case SelectNextStep => if i == 0 then Key(CreatePlan, 0) else Key(MaybeReplan, i - 1)
    case RunInvestigator => Key(SelectNextStep, i)
    case AssessEvidence => Key(RunInvestigator, i)
    case ProposeAction => Key(AssessEvidence, i)
    case MaybeReplan => Key(if g.GraphV1? then AssessEvidence else ProposeAction, i)
    case EscalateOrFinish => Key(MaybeReplan, i)
  }

  /** The keys completed once `n` has run in iteration `i`. */
  function Through(g: GraphVersion, n: Node, i: nat): seq<Key>
    decreases i, Rank(n)
  {
    if n.LoadIncident? then [Key(n, i)] else
      var p := Previous(g, n, i);
      Through(g, p.node, p.iteration) + [Key(n, i)]
  }

  function Before(g: GraphVersion, n: Node, i: nat): seq<Key> {
    if n.LoadIncident? then [] else
      var p := Previous(g, n, i);
      Through(g, p.node, p.iteration)
  }

  ghost predicate InThrough(g: GraphVersion, n: Node, i: nat, k: Key) {
    && Registered(g, k.node)
    && if IsContext(k.node) then k.iteration == 0 && (IsContext(n) ==> Rank(k.node) <= Rank(n))
       else if k.node.EscalateOrFinish? then n.EscalateOrFinish? && k.iteration == i
       else !IsContext(n) && (k.iteration < i || (k.iteration == i && Rank(k.node) <= Rank(n)))
  }

  lemma {:induction false} ThroughMembers(g: GraphVersion, n: Node, i: nat)
    requires Registered(g, n) && (IsContext(n) ==> i == 0)
    ensures forall k :: k in Through(g, n, i) <==> InThrough(g, n, i, k)
    decreases i, Rank(n)
  {
    if !n.LoadIncident? {
      var p := Previous(g, n, i);
      ThroughMembers(g, p.node, p.iteration);
    }
  }

  ghost predicate Distinct(keys: seq<Key>) {
    forall a, b :: 0 <= a < b < |keys| ==> keys[a] != keys[b]
  }

  lemma {:induction false} ThroughDistinct(g: GraphVersion, n: Node, i: nat)
    requires Registered(g, n) && (IsContext(n) ==> i == 0)
    ensures Distinct(Through(g, n, i))
    decreases i, Rank(n)
  {
    if !n.LoadIncident? {
      var p := Previous(g, n, i);
      ThroughDistinct(g, p.node, p.iteration);
      ThroughMembers(g, p.node, p.iteration);
      var keys := Through(g, p.node, p.iteration);
      assert forall a :: 0 <= a < |keys| ==> keys[a] in keys;
      assert !InThrough(g, p.node, p.iteration, Key(n, i));
    }
  }

  // ----- Checkpoints the executor writes ----------------------------------------------------

  /** What every checkpoint of the executor looks like: the keys are exactly those of the
      uninterrupted order, the iteration is under the limit. */
  ghost predicate Good(cfg: Config, ck: Checkpoint) {
    && Registered(cfg.graph, ck.node)
    && (IsContext(ck.node) ==> ck.iteration == 0)
    && ck.iteration < cfg.maxIterations
    && ck.completed == Through(cfg.graph, ck.node, ck.iteration)
    && ck.noProgress <= ck.iteration + (if Rank(ck.node) >= 9 then 1 else 0)
    && (ck.node.MaybeReplan? && ck.next.Continue? ==> ck.iteration + 1 < cfg.maxIterations)
  }

  /** The graph is about to run `n` and nothing from `n` on has run in this iteration. */
  ghost predicate Fresh(cfg: Config, n: Node, st: State) {
    && Registered(cfg.graph, n)
    && (IsContext(n) ==> st.iteration == 0)
    && st.iteration < cfg.maxIterations
    && st.completed == Before(cfg.graph, n, st.iteration)
    && st.noProgress <= st.iteration + (if n.EscalateOrFinish? then 1 else 0)
  }

  /** The state `execute` builds from the latest checkpoint. A resolved wait erases `next_action`. */
  function Resume(ck: Checkpoint, resolvedWait: bool): State {
    State(ck.iteration, ck.completed, ck.noProgress, if resolvedWait then Unset else ck.next)
  }

  const START := State(0, [], 0, Unset)

  lemma GoodIsBounded(cfg: Config, ck: Checkpoint, resolvedWait: bool)
    requires Good(cfg, ck)
    ensures Bounded(StateAfter(ck)) && Bounded(Resume(ck, resolvedWait))
  {
    ThroughMembers(cfg.graph, ck.node, ck.iteration);
  }

  lemma FreshIsBounded(cfg: Config, n: Node, st: State)
    requires Fresh(cfg, n, st)
    ensures Bounded(st) && Key(n, st.iteration) !in st.completed
  {
    if !n.LoadIncident? {
      var p := Previous(cfg.graph, n, st.iteration);
      ThroughMembers(cfg.graph, p.node, p.iteration);
    }
  }

  /** A node that has not run is executed, and its checkpoint is good. */
  lemma FreshVisit(cfg: Config, h: Handler, n: Node, st: State)
    requires Fresh(cfg, n, st)
    ensures var v := Visit(cfg, h, n, st);
            && v.Executed? && Good(cfg, v.checkpoint) && v.after == StateAfter(v.checkpoint)
            && v.checkpoint.node == n && v.checkpoint.iteration == st.iteration
            && v.checkpoint.completed == st.completed + [Key(n, st.iteration)]
  {
    FreshIsBounded(cfg, n, st);
  }

  lemma GoodContinues(cfg: Config, ck: Checkpoint)
    requires Good(cfg, ck)
    ensures Route(cfg.graph, ck.node, ck.next).Some?
            ==> Fresh(cfg, Route(cfg.graph, ck.node, ck.next).value, StateAfter(ck))
  {
  }

  /** What an uninterrupted execution still does after a checkpoint. */
  ghost function Continuation(cfg: Config, h: Handler, ck: Checkpoint): Walked
    requires Good(cfg, ck)
  {
    GoodIsBounded(cfg, ck, false);
    match Route(cfg.graph, ck.node, ck.next)
    case None => Walked([], StateAfter(ck), 0)
    case Some(m) => Walk(cfg, h, m, StateAfter(ck))
  }

  /** A walk over fresh nodes begins with the node's own checkpoint and goes on with its continuation. */
  lemma FreshWalk(cfg: Config, h: Handler, n: Node, st: State) returns (ck: Checkpoint)
    requires Fresh(cfg, n, st) && Bounded(st)
    ensures Good(cfg, ck) && ck.node == n && ck.iteration == st.iteration
    ensures ck.completed == st.completed + [Key(n, st.iteration)]
    ensures Walk(cfg, h, n, st).trace == [ck] + Continuation(cfg, h, ck).trace
    ensures Walk(cfg, h, n, st).final == Continuation(cfg, h, ck).final
  {
    hide Through, Before, Good, Fresh;
    FreshVisit(cfg, h, n, st);
    ck := Visit(cfg, h, n, st).checkpoint;
    GoodIsBounded(cfg, ck, false);
  }

  /** Along a walk that replays nothing, checkpoint k is good, its key is new, and the checkpoints
      after it are its continuation. */
  lemma {:induction false} TraceTail(cfg: Config, h: Handler, n: Node, st: State, k: nat)
    requires Fresh(cfg, n, st) && Bounded(st) && k < |Walk(cfg, h, n, st).trace|
    ensures var w := Walk(cfg, h, n, st);
            && Good(cfg, w.trace[k])
            && Continuation(cfg, h, w.trace[k]).trace == w.trace[k+1..]
            && Continuation(cfg, h, w.trace[k]).final == w.final
            && w.trace[0].node == n && w.trace[0].iteration == st.iteration
            && w.trace[k].completed ==
               (if k == 0 then st.completed else w.trace[k-1].completed)
               + [Key(w.trace[k].node, w.trace[k].iteration)]
            && (if k == 0 then st.iteration else w.trace[k-1].iteration) <= w.trace[k].iteration
    decreases k
  {
    hide Through, Before, Good, Fresh, Walk;
    var ck := FreshWalk(cfg, h, n, st);
    GoodContinues(cfg, ck);
    GoodIsBounded(cfg, ck, false);
    if k > 0 {
      TraceTail(cfg, h, Route(cfg.graph, ck.node, ck.next).value, StateAfter(ck), k - 1);
    }
  }

  // ----- Crash and resume ---------------------------------------------------------------------

  /** A node up to the checkpoint's own is completed, so visiting it again leaves the state alone; its edge leads
      to the following node unless `next_action` stops or diverts it. */
  lemma CompletedIsReplayed(cfg: Config, h: Handler, ck: Checkpoint, m: Node, st: State)
    requires Good(cfg, ck) && Registered(cfg.graph, m) && Rank(m) <= Rank(ck.node) && !m.MaybeReplan?
    requires st == State(ck.iteration, ck.completed, ck.noProgress, st.next)
    ensures Visit(cfg, h, m, st) == Replayed(st)
  {
    ThroughMembers(cfg.graph, ck.node, ck.iteration);
    assert InThrough(cfg.graph, ck.node, ck.iteration, Key(m, IterationOf(m, st)));
  }

  /** Replaying from node `m` up to node `t`, both completed in this iteration, runs nothing, unless the
      state's `next_action` stops or diverts the replay on the way. */
  lemma {:induction false} FastForward(cfg: Config, h: Handler, ck: Checkpoint, m: Node, t: Node, st: State)
    requires Good(cfg, ck) && Bounded(st) && Registered(cfg.graph, m) && Registered(cfg.graph, t)
    requires Rank(m) <= Rank(t) <= Rank(ck.node)
    requires st == State(ck.iteration, ck.completed, ck.noProgress, st.next)
    requires st.next.Pause? ==> Rank(t) <= Rank(RunInvestigator)
    requires !st.next.Unset? && !st.next.Finish? ==> !t.EscalateOrFinish?
    ensures Walk(cfg, h, m, st).trace == Walk(cfg, h, t, st).trace
    ensures Walk(cfg, h, m, st).final == Walk(cfg, h, t, st).final
    decreases Rank(t) - Rank(m)
  {
    hide Through, Visit, Good, Bounded;
    if m != t {
      if m.MaybeReplan? {
        ReplanIsReplayed(cfg, h, ck, st);
      } else {
        CompletedIsReplayed(cfg, h, ck, m, st);
      }
      FastForward(cfg, h, ck, Following(cfg.graph, m), t, st);
    }
  }

  lemma ReplanIsReplayed(cfg: Config, h: Handler, ck: Checkpoint, st: State)
    requires Good(cfg, ck) && ck.node.EscalateOrFinish? && !st.next.Continue?
    requires st == State(ck.iteration, ck.completed, ck.noProgress, st.next)
    ensures Visit(cfg, h, MaybeReplan, st) == Replayed(st)
  {
    ThroughMembers(cfg.graph, ck.node, ck.iteration);
    assert InThrough(cfg.graph, ck.node, ck.iteration, Key(MaybeReplan, ck.iteration));
  }

  /** The two checkpoints after which a restart does not do what the running graph would have done:
      `pause` asked for by a node that has no interrupt edge although an interrupt node already ran, and
      `continue` asked for by the last node. */
  predicate Stuck(ck: Checkpoint) {
    || (ck.node.AssessEvidence? && ck.next.Pause?)
    || (ck.node.EscalateOrFinish? && ck.next.Continue?)
  }

  /** Visiting a completed node only follows its edge. */
  lemma ReplayStep(cfg: Config, h: Handler, n: Node, st: State)
    requires Bounded(st) && Key(n, IterationOf(n, st)) in st.completed
    ensures var after := Visit(cfg, h, n, st).after;
            match Route(cfg.graph, n, st.next)
            case None => Walk(cfg, h, n, st).trace == [] && Walk(cfg, h, n, st).final == after
            case Some(m) => Walk(cfg, h, n, st).trace == Walk(cfg, h, m, after).trace
                            && Walk(cfg, h, n, st).final == Walk(cfg, h, m, after).final
  {
  }

  lemma FreshWalkStarts(cfg: Config, h: Handler, n: Node, st: State)
    requires Fresh(cfg, n, st)
    ensures Bounded(st)
    ensures var t := Walk(cfg, h, n, st).trace; |t| > 0 && t[0].node == n && t[0].iteration == st.iteration
  {
    FreshIsBounded(cfg, n, st);
    FreshVisit(cfg, h, n, st);
  }

  /** A replay under `pause` runs nothing once an interrupt node has run. */
  lemma PausedReplay(cfg: Config, h: Handler, ck: Checkpoint)
    requires Good(cfg, ck) && ck.next.Pause? && Rank(ck.node) > Rank(RunInvestigator)
    ensures Bounded(Resume(ck, false))
    ensures var w := Walk(cfg, h, LoadIncident, Resume(ck, false));
            w.trace == [] && w.final == Resume(ck, false)
  {
    hide Walk, Through;
    var st := Resume(ck, false);
    GoodIsBounded(cfg, ck, false);
    ThroughMembers(cfg.graph, ck.node, ck.iteration);
    FastForward(cfg, h, ck, LoadIncident, RunInvestigator, st);
    ReplayStep(cfg, h, RunInvestigator, st);
  }

  /** After `continue` of the last node a restart enters the next iteration. */
  lemma DivertedWalk(cfg: Config, h: Handler, ck: Checkpoint)
    requires Good(cfg, ck) && ck.next.Continue? && ck.node.EscalateOrFinish?
    ensures Bounded(Resume(ck, false)) && Bounded(Resume(ck, false).(iteration := ck.iteration + 1))
    ensures Walk(cfg, h, LoadIncident, Resume(ck, false)).trace
            == Walk(cfg, h, SelectNextStep, Resume(ck, false).(iteration := ck.iteration + 1)).trace
  {
    hide Walk, Through;
    var st := Resume(ck, false);
    GoodIsBounded(cfg, ck, false);
    ThroughMembers(cfg.graph, ck.node, ck.iteration);
    FastForward(cfg, h, ck, LoadIncident, MaybeReplan, st);
    ReplayStep(cfg, h, MaybeReplan, st);
  }

  lemma DivertedReplay(cfg: Config, h: Handler, ck: Checkpoint)
    requires Good(cfg, ck) && ck.next.Continue? && ck.node.EscalateOrFinish?
    ensures Bounded(Resume(ck, false))
    ensures var t := Walk(cfg, h, LoadIncident, Resume(ck, false)).trace;
            |t| > 0 && t[0].node == SelectNextStep && t[0].iteration == ck.iteration + 1
  {
    var st := Resume(ck, false).(iteration := ck.iteration + 1);
    DivertedWalk(cfg, h, ck);
    ThroughMembers(cfg.graph, ck.node, ck.iteration);
    assert Key(SelectNextStep, ck.iteration + 1) !in st.completed;
    assert Visit(cfg, h, SelectNextStep, st).Executed?;
  }

  /** In every other case the replay reaches the checkpoint's own node. */
  lemma PlainReplay(cfg: Config, h: Handler, ck: Checkpoint)
    requires Good(cfg, ck)
    requires ck.next.Pause? ==> Rank(ck.node) <= Rank(RunInvestigator)
    requires ck.node.EscalateOrFinish? ==> !ck.next.Continue?
    ensures Bounded(Resume(ck, false))
    ensures var w := Walk(cfg, h, LoadIncident, Resume(ck, false));
            w.trace == Continuation(cfg, h, ck).trace && w.final == Continuation(cfg, h, ck).final
  {
    hide Walk, Through;
    var st := Resume(ck, false);
    GoodIsBounded(cfg, ck, false);
    ThroughMembers(cfg.graph, ck.node, ck.iteration);
    if ck.node.EscalateOrFinish? && (ck.next.NoProgress? || ck.next.MaxIterations?) {
      FastForward(cfg, h, ck, LoadIncident, MaybeReplan, st);
      ReplayStep(cfg, h, MaybeReplan, st);
    } else {
      FastForward(cfg, h, ck, LoadIncident, ck.node, st);
      ReplayStep(cfg, h, ck.node, st);
    }
  }

  /** Crash/resume equivalence, exactly: restarting from a checkpoint runs the remaining nodes of the
      uninterrupted execution, with the same results, if and only if the checkpoint is not stuck. */
  lemma ResumeIsContinuation(cfg: Config, h: Handler, ck: Checkpoint)
    requires Good(cfg, ck)
    ensures Bounded(Resume(ck, false))
    ensures var w := Walk(cfg, h, LoadIncident, Resume(ck, false));
            (w.trace == Continuation(cfg, h, ck).trace && w.final == Continuation(cfg, h, ck).final)
            <==> !Stuck(ck)
  {
    GoodIsBounded(cfg, ck, false);
    if ck.next.Pause? && Rank(ck.node) > Rank(RunInvestigator) {
      PausedReplay(cfg, h, ck);
      if Stuck(ck) {
        GoodContinues(cfg, ck);
        FreshWalkStarts(cfg, h, Following(cfg.graph, ck.node), StateAfter(ck));
      }
    } else if Stuck(ck) {
      DivertedReplay(cfg, h, ck);
    } else {
      PlainReplay(cfg, h, ck);
    }
  }

  lemma ErasedIsFresh(cfg: Config, ck: Checkpoint)
    requires Good(cfg, ck) && Route(cfg.graph, ck.node, Unset).Some?
    ensures Fresh(cfg, Route(cfg.graph, ck.node, Unset).value, Resume(ck, true))
  {
  }

  lemma ErasedReplay(cfg: Config, h: Handler, ck: Checkpoint)
    requires Good(cfg, ck)
    ensures Bounded(Resume(ck, true))
    ensures Walk(cfg, h, LoadIncident, Resume(ck, true)).trace == Walk(cfg, h, ck.node, Resume(ck, true)).trace
    ensures Key(ck.node, IterationOf(ck.node, Resume(ck, true))) in ck.completed
  {
    GoodIsBounded(cfg, ck, true);
    ThroughMembers(cfg.graph, ck.node, ck.iteration);
    FastForward(cfg, h, ck, LoadIncident, ck.node, Resume(ck, true));
  }

  /** After a resolved wait the restart follows the route `next_action = None` takes from the latest
      checkpoint, in the same iteration. A checkpointed `continue` of `maybe_replan` is therefore not
      replayed: the run goes on to `escalate_or_finish`. */
  lemma ResumeAfterResolvedWait(cfg: Config, h: Handler, ck: Checkpoint)
    requires Good(cfg, ck)
    ensures Bounded(Resume(ck, true))
    ensures var t := Walk(cfg, h, LoadIncident, Resume(ck, true)).trace;
            match Route(cfg.graph, ck.node, Unset)
            case None => t == []
            case Some(m) =>
              && Fresh(cfg, m, Resume(ck, true))
              && t == Walk(cfg, h, m, Resume(ck, true)).trace
              && |t| > 0 && t[0].node == m && t[0].iteration == ck.iteration
  {
    hide Walk;
    ErasedReplay(cfg, h, ck);
    ReplayStep(cfg, h, ck.node, Resume(ck, true));
    if Route(cfg.graph, ck.node, Unset).Some? {
      ErasedIsFresh(cfg, ck);
      FreshWalkStarts(cfg, h, Route(cfg.graph, ck.node, Unset).value, Resume(ck, true));
    }
  }

  /** A checkpoint that paused the run goes on at the following node once its wait is resolved. */
  lemma PauseGoesOnAtTheNextNode(cfg: Config, h: Handler, ck: Checkpoint)
    requires Good(cfg, ck) && ck.next.Pause? && (ck.node.RunInvestigator? || ck.node.ProposeAction?)
    ensures Bounded(Resume(ck, true)) && Continuation(cfg, h, ck).trace == []
    ensures var w := Walk(cfg, h, LoadIncident, Resume(ck, true));
            |w.trace| > 0 && w.trace[0].node == Following(cfg.graph, ck.node)
            && w.trace[0].iteration == ck.iteration
  {
    ResumeAfterResolvedWait(cfg, h, ck);
  }

  // ----- Where the promise fails -----------------------------------------------------------------

  /** A handler that asks for nothing. */
  const SILENT: Handler := (n: Node, i: nat, wanted: NextAction, done: seq<Key>) => Answer(true, Unset)

  /** `assess_evidence` answering `pause`: the running graph goes on to `maybe_replan`, a restart from that
      checkpoint stops without running it. */
  lemma PauseAfterTheInterruptIsLost()
    ensures var cfg := Config(GraphV1, 1, 3);
            var ck := Checkpoint(AssessEvidence, 0, Through(GraphV1, AssessEvidence, 0), 0, true, Pause);
            && Good(cfg, ck) && Bounded(Resume(ck, false))
            && Walk(cfg, SILENT, LoadIncident, Resume(ck, false)).trace == []
            && |Continuation(cfg, SILENT, ck).trace| == 1
            && Continuation(cfg, SILENT, ck).trace[0].node == MaybeReplan
  {
    hide Walk, Through;
    var cfg := Config(GraphV1, 1, 3);
    var ck := Checkpoint(AssessEvidence, 0, Through(GraphV1, AssessEvidence, 0), 0, true, Pause);
    GoodIsBounded(cfg, ck, false);
    PausedReplay(cfg, SILENT, ck);
    GoodContinues(cfg, ck);
    OnlyReplanIsLeft(StateAfter(ck));
  }

  lemma OnlyReplanIsLeft(st: State)
    requires Fresh(Config(GraphV1, 1, 3), MaybeReplan, st) && st.next.Pause? && Bounded(st)
    ensures var t := Walk(Config(GraphV1, 1, 3), SILENT, MaybeReplan, st).trace; |t| == 1 && t[0].node == MaybeReplan
  {
    FreshVisit(Config(GraphV1, 1, 3), SILENT, MaybeReplan, st);
  }

  // ----- The iteration limit after a restart -------------------------------------------------------

  /** From here on the graph stays below the limit: nothing from `n` on is completed in this iteration. */
  ghost predicate Below(cfg: Config, n: Node, st: State) {
    && st.iteration < cfg.maxIterations
    && forall k <- st.completed :: k.iteration < st.iteration || (k.iteration == st.iteration && Rank(k.node) < Rank(n))
                                   || IsContext(k.node)
  }

  lemma {:induction false} StaysBelow(cfg: Config, h: Handler, n: Node, st: State)
    requires Bounded(st) && Below(cfg, n, st) && !IsContext(n)
    ensures forall c <- Walk(cfg, h, n, st).trace :: c.iteration < cfg.maxIterations
    decreases Fuel(cfg, n, st), 10 - Rank(n)
  {
    var v := Visit(cfg, h, n, st);
    assert v.Executed?;
    match Route(cfg.graph, n, v.after.next)
    case None =>
    case Some(m) =>
      assert Below(cfg, m, v.after);
      StaysBelow(cfg, h, m, v.after);
  }

  /** Every checkpoint that a restart writes stays below the iteration limit if and only if the restart is not from
      a `continue` of `escalate_or_finish` in the last iteration: there it runs `select_next_step` in iteration
      `maxIterations`. */
  lemma RestartStaysBelowTheLimit(cfg: Config, h: Handler, ck: Checkpoint)
    requires Good(cfg, ck)
    ensures Bounded(Resume(ck, false))
    ensures (forall c <- Walk(cfg, h, LoadIncident, Resume(ck, false)).trace :: c.iteration < cfg.maxIterations)
            <==> !(ck.node.EscalateOrFinish? && ck.next.Continue? && ck.iteration + 1 == cfg.maxIterations)
  {
    hide Walk;
    GoodIsBounded(cfg, ck, false);
    if ck.node.EscalateOrFinish? && ck.next.Continue? {
      if ck.iteration + 1 == cfg.maxIterations {
        DivertedReplay(cfg, h, ck);
        var t := Walk(cfg, h, LoadIncident, Resume(ck, false)).trace;
        assert t[0] in t;
      } else {
        var st := Resume(ck, false).(iteration := ck.iteration + 1);
        DivertedWalk(cfg, h, ck);
        ThroughMembers(cfg.graph, ck.node, ck.iteration);
        StaysBelow(cfg, h, SelectNextStep, st);
      }
    } else {
      ResumeIsContinuation(cfg, h, ck);
      if Stuck(ck) { PausedReplay(cfg, h, ck); } else { ContinuationStaysBelow(cfg, h, ck); }
    }
  }

  lemma ContinuationStaysBelow(cfg: Config, h: Handler, ck: Checkpoint)
    requires Good(cfg, ck)
    ensures forall c <- Continuation(cfg, h, ck).trace :: c.iteration < cfg.maxIterations
  {
    hide Walk;
    GoodContinues(cfg, ck);
    GoodIsBounded(cfg, ck, false);
    var t := Continuation(cfg, h, ck).trace;
    forall k | 0 <= k < |t| ensures t[k].iteration < cfg.maxIterations {
      TraceTail(cfg, h, Route(cfg.graph, ck.node, ck.next).value, StateAfter(ck), k);
    }
  }
}
