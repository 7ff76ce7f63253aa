/** The no-progress budget of an investigation run (backend/app/services/agent_runtime.py), measured by what the
    handlers answered: over one execution, and over whole lives with any handlers, crashes and resolved waits. */
module ProgressBudget {
  import opened Common
  import opened InvestigationGraph
  import opened AgentRuntime
  import opened ExecutionLength
  import opened RunLives

  // ----- Counting passes in a log ---------------------------------------------------------------------------

  /** No `maybe_replan` from checkpoint i on answered that the pass progressed. */
  ghost predicate NothingSince(log: seq<Checkpoint>, i: nat) {
    forall j :: i <= j < |log| && log[j].node.MaybeReplan? ==> !log[j].progressed
  }

  /** The passes without progress since the last one with progress. */
  ghost function IdlePasses(log: seq<Checkpoint>): set<nat> {
    set i: nat | i < |log| && log[i].node.MaybeReplan? && NothingSince(log, i)
  }

  lemma NextPass(log: seq<Checkpoint>, ck: Checkpoint)
    ensures IdlePasses(log + [ck])
            == if !ck.node.MaybeReplan? then IdlePasses(log)
               else if ck.progressed then {} else IdlePasses(log) + {|log|}
  {
    var longer := log + [ck];
    assert longer[|log|] == ck;
    forall i: nat ensures i in IdlePasses(longer) <==>
                          || (i in IdlePasses(log) && (ck.node.MaybeReplan? ==> !ck.progressed))
                          || (i == |log| && ck.node.MaybeReplan? && !ck.progressed)
    {
      if i < |log| {
        assert longer[i] == log[i];
        if NothingSince(longer, i) { assert forall j :: i <= j < |log| ==> longer[j] == log[j]; }
      }
    }
  }

  // ----- What the handlers told ------------------------------------------------------------------------------

  /** What the handler of one visit told, and the action it leaves requested if it asked for none. */
  function Asked(h: Handler, before: State, ck: Checkpoint): Answer {
    var answer := h(ck.node, ck.iteration, before.next, before.completed);
    Answer(answer.progressed, if answer.next.Unset? then before.next else answer.next)
  }

  /** The state the executor had when it wrote checkpoint k of a walk, up to its iteration. */
  function StateBefore(st: State, trace: seq<Checkpoint>, k: nat): State
    requires k < |trace|
  {
    if k == 0 then st else Resume(trace[k-1], false)
  }

  /** What the handler told for checkpoint k of a life. */
  ghost function Told(cfg: Config, epochs: seq<Epoch>, k: nat): Answer
    requires k < |Live(cfg, epochs)|
  {
    var log, e := Live(cfg, epochs[..|epochs|-1]), epochs[|epochs|-1];
    if k < |log| then Told(cfg, epochs[..|epochs|-1], k)
    else
      var added := Live(cfg, epochs)[|log|..];
      Asked(e.handler, StateBefore(ResumeFrom(log, e.resolvedWait), added, k - |log|), added[k - |log|])
  }

  /** Checkpoint `ck` is made of the count before it and of what the handler told. */
  ghost predicate Decided(cfg: Config, told: Answer, count: nat, ck: Checkpoint) {
    && ck.progressed == told.progressed
    && (!ck.node.MaybeReplan? ==> ck.noProgress == count && ck.next == told.next)
    && (ck.node.MaybeReplan? ==>
          && ck.noProgress == (if told.progressed then 0 else count + 1)
          && (ck.noProgress >= cfg.noProgressLimit ==> ck.next.NoProgress?)
          && (ck.noProgress < cfg.noProgressLimit ==>
                ck.next == if told.next.Continue? && ck.iteration + 1 >= cfg.maxIterations then MaxIterations
                           else told.next))
  }

  ghost predicate DecidedAt(cfg: Config, h: Handler, st: State, trace: seq<Checkpoint>, k: nat)
    requires k < |trace|
  {
    var before := StateBefore(st, trace, k);
    Decided(cfg, Asked(h, before, trace[k]), before.noProgress, trace[k])
  }

  lemma {:induction false} WalkIsDecided(cfg: Config, h: Handler, n: Node, st: State, k: nat)
    requires Bounded(st) && k < |Walk(cfg, h, n, st).trace|
    ensures DecidedAt(cfg, h, st, Walk(cfg, h, n, st).trace, k)
    decreases Fuel(cfg, n, st), 10 - Rank(n)
  {
    hide Decided, Visit, Fuel, Bounded;
    var v := Visit(cfg, h, n, st);
    VisitIsDecided(cfg, h, n, st);
    var m := Route(cfg.graph, n, v.after.next);
    if m.Some? {
      RouteDecreases(cfg, h, n, st);
      var rest := Walk(cfg, h, m.value, v.after).trace;
      if v.Replayed? {
        WalkIsDecided(cfg, h, m.value, v.after, k);
      } else if k > 0 {
        WalkIsDecided(cfg, h, m.value, v.after, k - 1);
      }
    }
  }

  lemma VisitIsDecided(cfg: Config, h: Handler, n: Node, st: State)
    ensures var v := Visit(cfg, h, n, st);
            if v.Replayed? then v.after.(iteration := st.iteration) == st
            else && Decided(cfg, Asked(h, st, v.checkpoint), st.noProgress, v.checkpoint)
                 && v.after.(iteration := v.checkpoint.iteration) == Resume(v.checkpoint, false)
  {
  }

  /** The count before checkpoint k of a log. */
  function CountBefore(log: seq<Checkpoint>, k: nat): nat
    requires k < |log|
  {
    if k == 0 then 0 else log[k-1].noProgress
  }

  /** What the executions before the last one wrote, they wrote as if they were all. */
  lemma EarlierCheckpoint(cfg: Config, epochs: seq<Epoch>, k: nat)
    requires epochs != [] && k < |Live(cfg, epochs[..|epochs|-1])|
    ensures Live(cfg, epochs[..|epochs|-1]) <= Live(cfg, epochs)
    ensures Told(cfg, epochs, k) == Told(cfg, epochs[..|epochs|-1], k)
  {
    hide Walk, Bounded, Asked;
  }

  /** A checkpoint of the last execution is one of its walk. */
  lemma LastCheckpoint(cfg: Config, epochs: seq<Epoch>, k: nat)
    requires epochs != [] && |Live(cfg, epochs[..|epochs|-1])| <= k < |Live(cfg, epochs)|
    ensures var log, e := Live(cfg, epochs[..|epochs|-1]), epochs[|epochs|-1];
            var st := ResumeFrom(log, e.resolvedWait);
            && Bounded(st) && k - |log| < |Walk(cfg, e.handler, LoadIncident, st).trace|
            && var trace, j := Walk(cfg, e.handler, LoadIncident, st).trace, k - |log|;
               && Live(cfg, epochs)[k] == trace[j]
               && Told(cfg, epochs, k) == Asked(e.handler, StateBefore(st, trace, j), trace[j])
               && CountBefore(Live(cfg, epochs), k) == StateBefore(st, trace, j).noProgress
               && (k > 0 && !(j == 0 && e.resolvedWait) ==>
                     Live(cfg, epochs)[k-1].next == StateBefore(st, trace, j).next)
  {
    hide Walk, Bounded, Asked;
    var log, e := Live(cfg, epochs[..|epochs|-1]), epochs[|epochs|-1];
    assert Live(cfg, epochs) == log + Added(cfg, log, e);
    assert Live(cfg, epochs)[|log|..] == Added(cfg, log, e);
  }

  lemma {:induction false} LivesAreDecided(cfg: Config, epochs: seq<Epoch>, k: nat)
    requires k < |Live(cfg, epochs)|
    ensures Decided(cfg, Told(cfg, epochs, k), CountBefore(Live(cfg, epochs), k), Live(cfg, epochs)[k])
  {
    hide Walk, Decided, Bounded, Asked, Told;
    assert epochs != [];
    var log, e := Live(cfg, epochs[..|epochs|-1]), epochs[|epochs|-1];
    if k < |log| {
      EarlierCheckpoint(cfg, epochs, k);
      LivesAreDecided(cfg, epochs[..|epochs|-1], k);
    } else {
      LastCheckpoint(cfg, epochs, k);
      WalkIsDecided(cfg, e.handler, LoadIncident, ResumeFrom(log, e.resolvedWait), k - |log|);
    }
  }

  lemma {:induction false} CountIsRecorded(cfg: Config, epochs: seq<Epoch>, k: nat)
    requires k < |Live(cfg, epochs)|
    ensures Live(cfg, epochs)[k].noProgress == |IdlePasses(Live(cfg, epochs)[..k+1])|
  {
    hide Live, Told;
    var log := Live(cfg, epochs);
    LivesAreDecided(cfg, epochs, k);
    assert log[..k+1] == log[..k] + [log[k]];
    NextPass(log[..k], log[k]);
    if k > 0 { CountIsRecorded(cfg, epochs, k - 1); } else { assert IdlePasses(log[..0]) == {}; }
  }

  /** Whatever the handlers answer, wherever the executions crash and whichever waits are resolved: every checkpoint
      records what its handler answered and how many passes have been without progress since the last one with
      progress; and `maybe_replan` stops the run for no progress once that many passes reach the limit, for the
      iteration limit if one more pass was asked for and none is left, and otherwise leaves the answer as it is. */
  lemma BudgetIsWhatWasTold(cfg: Config, epochs: seq<Epoch>)
    ensures var log := Live(cfg, epochs);
            forall k :: 0 <= k < |log| ==>
              var ck, told, idle := log[k], Told(cfg, epochs, k), |IdlePasses(log[..k+1])|;
              && ck.progressed == told.progressed && ck.noProgress == idle
              && ck.next ==
                 if ck.node.MaybeReplan? && idle >= cfg.noProgressLimit then NoProgress
                 else if ck.node.MaybeReplan? && told.next.Continue? && ck.iteration + 1 >= cfg.maxIterations
                 then MaxIterations
                 else told.next
  {
    hide Live, Told, IdlePasses;
    forall k | 0 <= k < |Live(cfg, epochs)|
      ensures Live(cfg, epochs)[k].noProgress == |IdlePasses(Live(cfg, epochs)[..k+1])|
      ensures Decided(cfg, Told(cfg, epochs, k), CountBefore(Live(cfg, epochs), k), Live(cfg, epochs)[k])
    {
      LivesAreDecided(cfg, epochs, k);
      CountIsRecorded(cfg, epochs, k);
    }
  }

  // ----- A run that was stopped ----------------------------------------------------------------------------------

  /** The action the executor itself requests when a limit is reached. */
  predicate Stopped(next: NextAction) {
    next.NoProgress? || next.MaxIterations?
  }

  /** The handler answers what its type lets it answer: `continue`, `finish`, `pause` or nothing. */
  ghost predicate Plain(h: Handler) {
    forall n, i, wanted, done :: !Stopped(h(n, i, wanted, done).next)
  }

  /** Every node listed before `n` has run, in this iteration if it belongs to the loop. */
  ghost predicate DoneBelow(g: GraphVersion, n: Node, st: State) {
    forall m: Node :: Registered(g, m) && Rank(m) < Rank(n) ==> Key(m, IterationOf(m, st)) in st.completed
  }

  /** A stopped run has nothing left to run before its last node. */
  ghost predicate Calm(g: GraphVersion, st: State) {
    Stopped(st.next) ==> DoneBelow(g, EscalateOrFinish, st)
  }

  ghost predicate Arrived(g: GraphVersion, n: Node, st: State) {
    Registered(g, n) && DoneBelow(g, n, st) && Calm(g, st) && (Stopped(st.next) ==> !n.EscalateOrFinish?)
  }

  lemma StoppedVisit(cfg: Config, h: Handler, n: Node, st: State)
    requires Arrived(cfg.graph, n, st) && Stopped(st.next)
    ensures Visit(cfg, h, n, st) == Replayed(st)
    ensures var m := Route(cfg.graph, n, st.next);
            m.Some? ==> Arrived(cfg.graph, m.value, st)
  {
    assert Key(n, IterationOf(n, st)) in st.completed;
  }

  /** A visit leaves its node done; what runs next has everything before it done. */
  lemma VisitArrives(cfg: Config, h: Handler, n: Node, st: State)
    requires Registered(cfg.graph, n) && DoneBelow(cfg.graph, n, st) && !Stopped(st.next)
    ensures var after := Visit(cfg, h, n, st).after;
            var m := Route(cfg.graph, n, after.next);
            && (m.Some? ==> Registered(cfg.graph, m.value) && DoneBelow(cfg.graph, m.value, after))
            && (m.Some? && m.value.EscalateOrFinish? ==> n.MaybeReplan? && !Stopped(after.next))
  {
  }

  lemma StopIsCalm(cfg: Config, h: Handler, n: Node, st: State)
    requires Registered(cfg.graph, n) && DoneBelow(cfg.graph, n, st) && Plain(h) && !Stopped(st.next)
    ensures var v := Visit(cfg, h, n, st);
            && (Stopped(v.after.next) ==> v.Executed? && n.MaybeReplan?)
            && (v.Executed? ==> v.checkpoint.node == n && v.checkpoint.next == v.after.next
                                && Calm(cfg.graph, Resume(v.checkpoint, false)))
            && Calm(cfg.graph, v.after)
  {
  }

  /** Nothing runs while a stop is requested, and only `maybe_replan` requests one. */
  lemma CalmVisit(cfg: Config, h: Handler, n: Node, st: State)
    requires Arrived(cfg.graph, n, st) && Plain(h)
    ensures var v := Visit(cfg, h, n, st);
            && (v.Executed? ==>
                  && !Stopped(st.next) && Calm(cfg.graph, Resume(v.checkpoint, false))
                  && (Stopped(v.checkpoint.next) ==> v.checkpoint.node.MaybeReplan?))
            && (Stopped(st.next) ==> v == Replayed(st))
            && (Route(cfg.graph, n, v.after.next).Some? ==>
                  Arrived(cfg.graph, Route(cfg.graph, n, v.after.next).value, v.after))
  {
    hide Visit, DoneBelow, Plain;
    if Stopped(st.next) {
      StoppedVisit(cfg, h, n, st);
    } else {
      VisitArrives(cfg, h, n, st);
      StopIsCalm(cfg, h, n, st);
    }
  }

  /** Checkpoint k was written while no stop was requested, and requests one only from `maybe_replan`. */
  ghost predicate CalmAt(g: GraphVersion, st: State, trace: seq<Checkpoint>, k: nat)
    requires k < |trace|
  {
    && !Stopped(StateBefore(st, trace, k).next) && Calm(g, Resume(trace[k], false))
    && (Stopped(trace[k].next) ==> trace[k].node.MaybeReplan?)
  }

  ghost predicate CalmTrace(g: GraphVersion, st: State, trace: seq<Checkpoint>) {
    forall k {:trigger CalmAt(g, st, trace, k)} :: 0 <= k < |trace| ==> CalmAt(g, st, trace, k)
  }

  lemma CalmVisitAndRest(g: GraphVersion, st: State, v: Visited, rest: seq<Checkpoint>)
    requires CalmTrace(g, v.after, rest)
    requires v.Replayed? ==> v.after.next == st.next
    requires v.Executed? ==>
               && !Stopped(st.next) && Calm(g, Resume(v.checkpoint, false)) && v.after.next == v.checkpoint.next
               && (Stopped(v.checkpoint.next) ==> v.checkpoint.node.MaybeReplan?)
    ensures CalmTrace(g, st, (if v.Executed? then [v.checkpoint] else []) + rest)
  {
    hide Calm;
    var trace := (if v.Executed? then [v.checkpoint] else []) + rest;
    forall k | 0 <= k < |trace| ensures CalmAt(g, st, trace, k) {
      if v.Replayed? {
        assert trace == rest && CalmAt(g, v.after, rest, k);
      } else if k > 0 {
        assert CalmAt(g, v.after, rest, k - 1);
      }
    }
  }

  lemma NoCalmTrace(g: GraphVersion, st: State)
    ensures CalmTrace(g, st, [])
  {
  }

  lemma {:induction false} WalkIsCalm(cfg: Config, h: Handler, n: Node, st: State)
    requires Bounded(st) && Arrived(cfg.graph, n, st) && Plain(h)
    ensures CalmTrace(cfg.graph, st, Walk(cfg, h, n, st).trace)
    ensures Stopped(st.next) ==> Walk(cfg, h, n, st).trace == []
    decreases Fuel(cfg, n, st), 10 - Rank(n)
  {
    hide Visit, Fuel, Bounded, Arrived, Calm, Plain, CalmTrace;
    var v := Visit(cfg, h, n, st);
    CalmVisit(cfg, h, n, st);
    VisitIsDecided(cfg, h, n, st);
    var m := Route(cfg.graph, n, v.after.next);
    if m.Some? {
      RouteDecreases(cfg, h, n, st);
      WalkIsCalm(cfg, h, m.value, v.after);
      CalmVisitAndRest(cfg.graph, st, v, Walk(cfg, h, m.value, v.after).trace);
    } else {
      NoCalmTrace(cfg.graph, v.after);
      CalmVisitAndRest(cfg.graph, st, v, []);
      assert Walk(cfg, h, n, st).trace == Walk(cfg, h, n, st).trace + [];
    }
  }

  ghost predicate CalmLog(g: GraphVersion, log: seq<Checkpoint>) {
    forall ck <- log :: Calm(g, Resume(ck, false)) && (Stopped(ck.next) ==> ck.node.MaybeReplan?)
  }

  lemma LogArrives(g: GraphVersion, log: seq<Checkpoint>, resolvedWait: bool)
    requires CalmLog(g, log)
    ensures Arrived(g, LoadIncident, ResumeFrom(log, resolvedWait))
  {
    if log != [] { assert log[|log|-1] in log; }
  }

  lemma {:induction false} LivesAreCalm(cfg: Config, epochs: seq<Epoch>)
    requires forall e <- epochs :: Plain(e.handler)
    ensures CalmLog(cfg.graph, Live(cfg, epochs))
  {
    hide Walk, Bounded, Plain, Calm, Arrived;
    if epochs != [] {
      var log, e := Live(cfg, epochs[..|epochs|-1]), epochs[|epochs|-1];
      LivesAreCalm(cfg, epochs[..|epochs|-1]);
      LogArrives(cfg.graph, log, e.resolvedWait);
      var st := ResumeFrom(log, e.resolvedWait);
      if Bounded(st) {
        WalkIsCalm(cfg, e.handler, LoadIncident, st);
        var trace := Walk(cfg, e.handler, LoadIncident, st).trace;
        assert forall ck <- Added(cfg, log, e) :: ck in trace;
        forall k | 0 <= k < |trace|
          ensures Calm(cfg.graph, Resume(trace[k], false)) && (Stopped(trace[k].next) ==> trace[k].node.MaybeReplan?)
        {
          assert CalmAt(cfg.graph, st, trace, k);
        }
      }
      assert Live(cfg, epochs) == log + Added(cfg, log, e);
    }
  }

  /** With handlers that answer what their type allows, a checkpoint of a life requests the stop for no progress if
      and only if it is one of `maybe_replan` at which the idle passes have reached the limit, and the stop for the
      iteration limit if and only if another pass was asked for below that count and none is left. */
  lemma StopsExactly(cfg: Config, epochs: seq<Epoch>, k: nat)
    requires (forall e <- epochs :: Plain(e.handler)) && k < |Live(cfg, epochs)|
    ensures var ck, idle := Live(cfg, epochs)[k], |IdlePasses(Live(cfg, epochs)[..k+1])|;
            && (ck.next.NoProgress? <==> ck.node.MaybeReplan? && idle >= cfg.noProgressLimit)
            && (ck.next.MaxIterations? <==>
                  && ck.node.MaybeReplan? && idle < cfg.noProgressLimit
                  && Told(cfg, epochs, k).next.Continue? && ck.iteration + 1 >= cfg.maxIterations)
  {
    hide Live, Told, IdlePasses, Plain, Calm;
    BudgetIsWhatWasTold(cfg, epochs);
    LivesAreCalm(cfg, epochs);
    LivesAskNoStop(cfg, epochs, k);
    assert Live(cfg, epochs)[k] in Live(cfg, epochs);
  }

  lemma {:induction false} LivesAskNoStop(cfg: Config, epochs: seq<Epoch>, k: nat)
    requires (forall e <- epochs :: Plain(e.handler)) && k < |Live(cfg, epochs)|
    ensures !Stopped(Told(cfg, epochs, k).next)
  {
    hide Walk, Bounded, Calm, Arrived, Told;
    assert epochs != [];
    var log, e := Live(cfg, epochs[..|epochs|-1]), epochs[|epochs|-1];
    if k < |log| {
      EarlierCheckpoint(cfg, epochs, k);
      LivesAskNoStop(cfg, epochs[..|epochs|-1], k);
    } else {
      LastCheckpoint(cfg, epochs, k);
      LastIsCalm(cfg, epochs, k);
    }
  }

  lemma LastIsCalm(cfg: Config, epochs: seq<Epoch>, k: nat)
    requires (forall e <- epochs :: Plain(e.handler)) && epochs != []
    requires |Live(cfg, epochs[..|epochs|-1])| <= k < |Live(cfg, epochs)|
    ensures var log, e := Live(cfg, epochs[..|epochs|-1]), epochs[|epochs|-1];
            var st := ResumeFrom(log, e.resolvedWait);
            && Bounded(st) && k - |log| < |Walk(cfg, e.handler, LoadIncident, st).trace|
            && CalmAt(cfg.graph, st, Walk(cfg, e.handler, LoadIncident, st).trace, k - |log|)
  {
    hide Live, Walk, Bounded, Calm, Arrived, Plain, Told;
    var log, e := Live(cfg, epochs[..|epochs|-1]), epochs[|epochs|-1];
    LastCheckpoint(cfg, epochs, k);
    LivesAreCalm(cfg, epochs[..|epochs|-1]);
    LogArrives(cfg.graph, log, e.resolvedWait);
    var st := ResumeFrom(log, e.resolvedWait);
    WalkIsCalm(cfg, e.handler, LoadIncident, st);
    assert CalmAt(cfg.graph, st, Walk(cfg, e.handler, LoadIncident, st).trace, k - |log|);
  }

  /** A stopped run stays stopped: until a wait is resolved no execution writes anything more. */
  lemma StoppedForGood(cfg: Config, epochs: seq<Epoch>, h: Handler, cut: nat)
    requires (forall e <- epochs :: Plain(e.handler)) && Plain(h) && Live(cfg, epochs) != []
    requires Stopped(Live(cfg, epochs)[|Live(cfg, epochs)|-1].next)
    ensures Live(cfg, epochs + [Epoch(h, false, cut)]) == Live(cfg, epochs)
  {
    hide Live, Walk, Calm, Plain, Arrived, Bounded;
    var log := Live(cfg, epochs);
    LivesAreCalm(cfg, epochs);
    LogArrives(cfg.graph, log, false);
    LastEpoch(cfg, epochs, Epoch(h, false, cut));
    if Bounded(ResumeFrom(log, false)) { WalkIsCalm(cfg, h, LoadIncident, ResumeFrom(log, false)); }
  }

  lemma {:induction false} NothingAfterAStop(cfg: Config, epochs: seq<Epoch>, k: nat)
    requires (forall e <- epochs :: Plain(e.handler) && !e.resolvedWait) && k + 1 < |Live(cfg, epochs)|
    ensures !Stopped(Live(cfg, epochs)[k].next)
  {
    hide Walk, Bounded, Calm, Plain, Told;
    assert epochs != [];
    var log := Live(cfg, epochs[..|epochs|-1]);
    if k + 1 < |log| {
      EarlierCheckpoint(cfg, epochs, k);
      NothingAfterAStop(cfg, epochs[..|epochs|-1], k);
    } else {
      LastCheckpoint(cfg, epochs, k + 1);
      LastIsCalm(cfg, epochs, k + 1);
    }
  }

  lemma {:induction false} FullCountStops(cfg: Config, epochs: seq<Epoch>, k: nat)
    requires (forall e <- epochs :: Plain(e.handler) && !e.resolvedWait) && cfg.noProgressLimit > 0
    requires k < |Live(cfg, epochs)|
    ensures Live(cfg, epochs)[k].noProgress <= cfg.noProgressLimit
    ensures Live(cfg, epochs)[k].noProgress == cfg.noProgressLimit ==> Live(cfg, epochs)[k].next.NoProgress?
  {
    hide Live, Plain, Told;
    LivesAreDecided(cfg, epochs, k);
    if k > 0 {
      FullCountStops(cfg, epochs, k - 1);
      NothingAfterAStop(cfg, epochs, k - 1);
    }
  }

  /** Without resolved waits no life has more idle passes in a row than the limit, and with the last of them it ends:
      nothing is written after it. */
  lemma IdlePassesAreLimited(cfg: Config, epochs: seq<Epoch>, k: nat)
    requires (forall e <- epochs :: Plain(e.handler) && !e.resolvedWait) && cfg.noProgressLimit > 0
    requires k < |Live(cfg, epochs)|
    ensures |IdlePasses(Live(cfg, epochs)[..k+1])| <= cfg.noProgressLimit
    ensures |IdlePasses(Live(cfg, epochs)[..k+1])| == cfg.noProgressLimit ==> k == |Live(cfg, epochs)| - 1
  {
    hide Live, IdlePasses, Plain;
    CountIsRecorded(cfg, epochs, k);
    FullCountStops(cfg, epochs, k);
    if k + 1 < |Live(cfg, epochs)| { NothingAfterAStop(cfg, epochs, k); }
  }

  // ----- Executions that never progress --------------------------------------------------------------------------

  /** No pass ever progresses. */
  ghost predicate Idle(h: Handler) {
    forall n, i, wanted, done :: !h(n, i, wanted, done).progressed
  }

  /** The handler asks for another pass every time and never pauses. */
  ghost predicate Restless(h: Handler) {
    forall n, i, wanted, done ::
      var next := h(n, i, wanted, done).next;
      !next.Pause? && (n.MaybeReplan? ==> next.Continue?)
  }

  /** The passes that the two limits leave to a run that never progresses. */
  function Passes(cfg: Config): nat {
    if cfg.noProgressLimit < cfg.maxIterations then cfg.noProgressLimit else cfg.maxIterations
  }

  function Budgeted(cfg: Config): Config {
    cfg.(maxIterations := Passes(cfg))
  }

  /** The graph is about to run `n`; every pass so far was idle. */
  ghost predicate FreshAndIdle(cfg: Config, n: Node, st: State) {
    && Fresh(cfg, n, st) && Bounded(st) && !n.EscalateOrFinish?
    && st.noProgress == st.iteration < Passes(cfg)
  }

  /** A visit of a handler that never progresses: the pass is counted, and another one needs room under both limits. */
  lemma IdleStep(cfg: Config, h: Handler, n: Node, st: State) returns (ck: Checkpoint)
    requires FreshAndIdle(cfg, n, st) && Idle(h)
    ensures Visit(cfg, h, n, st).Executed? && ck == Visit(cfg, h, n, st).checkpoint
    ensures ck.node == n && ck.iteration == st.iteration
    ensures ck.noProgress == st.noProgress + if n.MaybeReplan? then 1 else 0
    ensures Good(cfg, ck) && Bounded(StateAfter(ck))
    ensures var m := Route(cfg.graph, n, ck.next);
            && (m.Some? ==>
                  if m.value.EscalateOrFinish?
                  then n.MaybeReplan? && Fresh(cfg, m.value, StateAfter(ck)) && st.iteration + 1 < cfg.noProgressLimit
                  else FreshAndIdle(cfg, m.value, StateAfter(ck)))
            && Walk(cfg, h, n, st).visits == 1 + (if m.None? then 0 else Walk(cfg, h, m.value, StateAfter(ck)).visits)
            && Walk(cfg, h, n, st).final
               == if m.None? then StateAfter(ck) else Walk(cfg, h, m.value, StateAfter(ck)).final
  {
    hide Through, Before, Bounded;
    ck := FreshStep(cfg, h, n, st);
  }

  lemma {:induction false} IdleLoopIsBounded(cfg: Config, h: Handler, n: Node, st: State)
    requires FreshAndIdle(cfg, n, st) && Idle(h) && 5 <= Rank(n)
    ensures Walk(cfg, h, n, st).visits
            <= LoopVisits(Budgeted(cfg), n, st.iteration) + if cfg.noProgressLimit <= cfg.maxIterations then 0 else 1
    decreases cfg.maxIterations - st.iteration, 10 - Rank(n)
  {
    hide Walk, Through, Before, Bounded, Visit, Good, Idle;
    var ck := IdleStep(cfg, h, n, st);
    var m := Route(cfg.graph, n, ck.next);
    if m.Some? {
      if m.value.EscalateOrFinish? {
        var end := FreshStep(cfg, h, m.value, StateAfter(ck));
      } else {
        IdleLoopIsBounded(cfg, h, m.value, StateAfter(ck));
      }
    }
  }

  lemma {:induction false} IdleContextIsBounded(cfg: Config, h: Handler, n: Node, st: State)
    requires FreshAndIdle(cfg, n, st) && Idle(h) && IsContext(n)
    ensures Walk(cfg, h, n, st).visits
            <= 5 - Rank(n) + Passes(cfg) * PerPass(cfg.graph)
               + if cfg.noProgressLimit <= cfg.maxIterations then 0 else 1
    decreases 10 - Rank(n)
  {
    hide Walk, Through, Before, Bounded, Visit, Good, Idle;
    var ck := IdleStep(cfg, h, n, st);
    if n.CreatePlan? {
      IdleLoopIsBounded(cfg, h, SelectNextStep, StateAfter(ck));
    } else {
      IdleContextIsBounded(cfg, h, Following(cfg.graph, n), StateAfter(ck));
    }
  }

  /** The state an idle run ends in: every pass counted, and the limit that was reached first requested. */
  ghost predicate RanOut(cfg: Config, final: State) {
    && final.noProgress == Passes(cfg) == final.iteration + 1
    && final.next == if cfg.noProgressLimit <= cfg.maxIterations then NoProgress else MaxIterations
  }

  lemma RestlessVisit(cfg: Config, h: Handler, n: Node, st: State)
    requires Visit(cfg, h, n, st).Executed? && FreshAndIdle(cfg, n, st)
    requires Idle(h) && Restless(h) && !st.next.Pause?
    ensures var next := Visit(cfg, h, n, st).checkpoint.next;
            && !next.Pause?
            && (n.MaybeReplan? ==>
                  next == if st.iteration + 1 < Passes(cfg) then Continue
                          else if cfg.noProgressLimit <= cfg.maxIterations then NoProgress
                          else MaxIterations)
  {
    hide Fresh, Bounded;
  }

  lemma {:induction false} RestlessLoop(cfg: Config, h: Handler, n: Node, st: State)
    requires FreshAndIdle(cfg, n, st) && Idle(h) && Restless(h) && 5 <= Rank(n) && !st.next.Pause?
    ensures Walk(cfg, h, n, st).visits == LoopVisits(Budgeted(cfg), n, st.iteration)
    ensures RanOut(cfg, Walk(cfg, h, n, st).final)
    decreases cfg.maxIterations - st.iteration, 10 - Rank(n)
  {
    hide Walk, Through, Before, Bounded, Good, Visit, Idle, Restless;
    var ck := IdleStep(cfg, h, n, st);
    RestlessVisit(cfg, h, n, st);
    var m := Route(cfg.graph, n, ck.next);
    if m.Some? { RestlessLoop(cfg, h, m.value, StateAfter(ck)); }
  }

  lemma {:induction false} RestlessContext(cfg: Config, h: Handler, n: Node, st: State)
    requires FreshAndIdle(cfg, n, st) && Idle(h) && Restless(h) && IsContext(n) && !st.next.Pause?
    ensures Walk(cfg, h, n, st).visits == 5 - Rank(n) + Passes(cfg) * PerPass(cfg.graph)
    ensures RanOut(cfg, Walk(cfg, h, n, st).final)
    decreases 10 - Rank(n)
  {
    hide Walk, Through, Before, Bounded, Good, Visit, Idle, Restless;
    var ck := IdleStep(cfg, h, n, st);
    RestlessVisit(cfg, h, n, st);
    if n.CreatePlan? {
      RestlessLoop(cfg, h, SelectNextStep, StateAfter(ck));
    } else {
      RestlessContext(cfg, h, Following(cfg.graph, n), StateAfter(ck));
    }
  }

  /** The no-progress limit cuts an execution short. Whatever else a handler answers, if no pass ever progresses the
      execution visits at most the five context nodes and as many passes as the smaller limit; the last node comes on
      top only if the iteration limit is the smaller one. A handler that always asks for another pass gets exactly
      that many passes, and the run stops for the limit it meets first: for no progress if that is at most the
      iteration limit. */
  lemma IdleRunsAreThisLong(cfg: Config, h: Handler)
    requires cfg.maxIterations > 0 && cfg.noProgressLimit > 0 && Idle(h)
    ensures var w := Walk(cfg, h, LoadIncident, START);
            && w.visits <= 5 + Passes(cfg) * PerPass(cfg.graph)
                           + (if cfg.noProgressLimit <= cfg.maxIterations then 0 else 1)
            && (Restless(h) ==>
                  && w.visits == 5 + Passes(cfg) * PerPass(cfg.graph)
                  && w.final.noProgress == Passes(cfg) == w.final.iteration + 1
                  && (w.final.next.NoProgress? <==> cfg.noProgressLimit <= cfg.maxIterations)
                  && (w.final.next.MaxIterations? <==> cfg.maxIterations < cfg.noProgressLimit))
  {
    hide Walk, Through, Idle, Restless;
    IdleContextIsBounded(cfg, h, LoadIncident, START);
    if Restless(h) { RestlessContext(cfg, h, LoadIncident, START); }
  }
}
