/** Whole lives of an investigation run: any number of executions of the graph, with any handlers, each cut off
    anywhere by a crash (backend/app/services/agent_runtime.py). */
module RunLives {
  import opened Common
  import opened InvestigationGraph
  import opened AgentRuntime

  /** One execution: its handler, whether a wait has been resolved before it, and how many checkpoints
      it wrote before it stopped or crashed. */
  datatype Epoch = Epoch(handler: Handler, resolvedWait: bool, cut: nat)

  function ResumeFrom(log: seq<Checkpoint>, resolvedWait: bool): State {
    if log == [] then START else Resume(log[|log|-1], resolvedWait)
  }

  /** The checkpoints one execution adds to a log. */
  ghost function Added(cfg: Config, log: seq<Checkpoint>, e: Epoch): seq<Checkpoint> {
    var st := ResumeFrom(log, e.resolvedWait);
    if Bounded(st) then
      var trace := Walk(cfg, e.handler, LoadIncident, st).trace;
      trace[..if e.cut < |trace| then e.cut else |trace|]
    else []
  }

  ghost function Live(cfg: Config, epochs: seq<Epoch>): seq<Checkpoint> {
    if epochs == [] then [] else
      var log := Live(cfg, epochs[..|epochs|-1]);
      log + Added(cfg, log, epochs[|epochs|-1])
  }

  /** Checkpoint k adds its own key to the keys of the one before it, in the same or a later iteration. */
  ghost predicate Follows(log: seq<Checkpoint>, k: nat)
    requires k < |log|
  {
    var ck := log[k];
    && ck.completed == (if k == 0 then [] else log[k-1].completed) + [Key(ck.node, ck.iteration)]
    && (if k == 0 then 0 else log[k-1].iteration) <= ck.iteration
  }

  // ----- The checkpoint contract, for every handler --------------------------------------------------

  ghost predicate ContextDone(rank: nat, keys: seq<Key>) {
    forall n: Node :: IsContext(n) && Rank(n) < rank ==> Key(n, 0) in keys
  }

  /** What holds whenever the graph runs or could be restarted. */
  ghost predicate Sound(g: GraphVersion, st: State) {
    && Distinct(st.completed)
    && (forall k <- st.completed :: Registered(g, k.node) && k.iteration <= st.iteration)
    && (st.iteration > 0 ==> ContextDone(5, st.completed))
    && st.noProgress <= st.iteration + (if Key(MaybeReplan, st.iteration) in st.completed then 1 else 0)
  }

  /** The graph is about to visit `n`. */
  ghost predicate Entered(g: GraphVersion, n: Node, st: State) {
    Registered(g, n) && ContextDone(Rank(n), st.completed)
  }

  /** Checkpoint k of a trace can be restarted from, and follows the one before it or the state it started from. */
  ghost predicate SoundAt(g: GraphVersion, st: State, trace: seq<Checkpoint>, k: nat)
    requires k < |trace|
  {
    && Sound(g, Resume(trace[k], false))
    && trace[k].completed == (if k == 0 then st.completed else trace[k-1].completed)
                             + [Key(trace[k].node, trace[k].iteration)]
    && (if k == 0 then st.iteration else trace[k-1].iteration) <= trace[k].iteration
  }

  ghost predicate SoundTrace(g: GraphVersion, st: State, trace: seq<Checkpoint>) {
    forall k {:trigger SoundAt(g, st, trace, k)} :: 0 <= k < |trace| ==> SoundAt(g, st, trace, k)
  }

  lemma SoundVisit(cfg: Config, h: Handler, n: Node, st: State)
    requires Sound(cfg.graph, st) && Entered(cfg.graph, n, st)
    ensures var v := Visit(cfg, h, n, st);
            && Sound(cfg.graph, v.after) && st.iteration <= v.after.iteration
            && ContextDone(Rank(n) + 1, v.after.completed)
            && (v.Replayed? ==> v.after.completed == st.completed)
            && (v.Executed? ==>
                  && Sound(cfg.graph, Resume(v.checkpoint, false)) && v.after.completed == v.checkpoint.completed
                  && v.checkpoint.completed == st.completed + [Key(v.checkpoint.node, v.checkpoint.iteration)]
                  && st.iteration <= v.checkpoint.iteration <= v.after.iteration)
  {
    assert !IsContext(n) ==> ContextDone(5, st.completed);
  }

  lemma RouteEnters(g: GraphVersion, n: Node, st: State)
    requires Registered(g, n) && ContextDone(Rank(n) + 1, st.completed) && Route(g, n, st.next).Some?
    ensures Entered(g, Route(g, n, st.next).value, st)
  {
  }

  lemma RouteDecreases(cfg: Config, h: Handler, n: Node, st: State)
    requires Bounded(st) && Route(cfg.graph, n, Visit(cfg, h, n, st).after.next).Some?
    ensures var after := Visit(cfg, h, n, st).after;
            var m := Route(cfg.graph, n, after.next).value;
            && Bounded(after)
            && (Fuel(cfg, m, after) < Fuel(cfg, n, st)
                || (Fuel(cfg, m, after) == Fuel(cfg, n, st) && Rank(n) < Rank(m)))
  {
  }

  lemma TraceOfVisit(g: GraphVersion, st: State, v: Visited, rest: seq<Checkpoint>)
    requires st.iteration <= v.after.iteration && SoundTrace(g, v.after, rest)
    requires v.Replayed? ==> v.after.completed == st.completed
    requires v.Executed? ==>
               && Sound(g, Resume(v.checkpoint, false)) && v.after.completed == v.checkpoint.completed
               && v.checkpoint.completed == st.completed + [Key(v.checkpoint.node, v.checkpoint.iteration)]
               && st.iteration <= v.checkpoint.iteration <= v.after.iteration
    ensures SoundTrace(g, st, (if v.Executed? then [v.checkpoint] else []) + rest)
  {
    hide Sound;
    var trace := (if v.Executed? then [v.checkpoint] else []) + rest;
    forall k | 0 <= k < |trace| ensures SoundAt(g, st, trace, k) {
      if v.Replayed? {
        assert trace == rest && SoundAt(g, v.after, rest, k);
      } else if k > 0 {
        assert SoundAt(g, v.after, rest, k - 1);
      }
    }
  }

  /** Whatever the handler answers, every checkpoint of a walk can be restarted from and follows the one before. */
  lemma {:induction false} WalkIsSound(cfg: Config, h: Handler, n: Node, st: State)
    requires Bounded(st) && Sound(cfg.graph, st) && Entered(cfg.graph, n, st)
    ensures SoundTrace(cfg.graph, st, Walk(cfg, h, n, st).trace)
    decreases Fuel(cfg, n, st), 10 - Rank(n)
  {
    hide Sound, ContextDone, Visit, Fuel, SoundTrace, Bounded;
    var v := Visit(cfg, h, n, st);
    SoundVisit(cfg, h, n, st);
    var m := Route(cfg.graph, n, v.after.next);
    if m.Some? {
      RouteEnters(cfg.graph, n, v.after);
      RouteDecreases(cfg, h, n, st);
      WalkIsSound(cfg, h, m.value, v.after);
      TraceOfVisit(cfg.graph, st, v, Walk(cfg, h, m.value, v.after).trace);
    } else {
      NoTrace(cfg.graph, v.after);
      TraceOfVisit(cfg.graph, st, v, []);
      assert Walk(cfg, h, n, st).trace == Walk(cfg, h, n, st).trace + [];
    }
  }

  lemma NoTrace(g: GraphVersion, st: State)
    ensures SoundTrace(g, st, [])
  {
  }

  lemma SoundTracesJoin(g: GraphVersion, log: seq<Checkpoint>, resolvedWait: bool, trace: seq<Checkpoint>, n: nat)
    requires SoundTrace(g, START, log) && SoundTrace(g, ResumeFrom(log, resolvedWait), trace) && n <= |trace|
    ensures SoundTrace(g, START, log + trace[..n])
  {
    hide Sound;
    var longer := log + trace[..n];
    forall k | 0 <= k < |longer| ensures SoundAt(g, START, longer, k) {
      if k < |log| {
        assert SoundAt(g, START, log, k);
      } else {
        assert SoundAt(g, ResumeFrom(log, resolvedWait), trace, k - |log|);
        assert longer[k] == trace[k - |log|] && (k > |log| ==> longer[k-1] == trace[k - 1 - |log|]);
      }
    }
  }

  lemma LogCanBeResumed(g: GraphVersion, log: seq<Checkpoint>, resolvedWait: bool)
    requires SoundTrace(g, START, log)
    ensures Sound(g, ResumeFrom(log, resolvedWait)) && Bounded(ResumeFrom(log, resolvedWait))
  {
    if log != [] {
      assert SoundAt(g, START, log, |log| - 1);
      assert Sound(g, Resume(log[|log|-1], false));
    }
  }

  lemma {:induction false} LivesAreSound(cfg: Config, epochs: seq<Epoch>)
    ensures SoundTrace(cfg.graph, START, Live(cfg, epochs))
  {
    hide Walk, Sound, SoundTrace, Bounded;
    if epochs == [] {
      NoTrace(cfg.graph, START);
    } else {
      var log, e := Live(cfg, epochs[..|epochs|-1]), epochs[|epochs|-1];
      LivesAreSound(cfg, epochs[..|epochs|-1]);
      LogCanBeResumed(cfg.graph, log, e.resolvedWait);
      var st := ResumeFrom(log, e.resolvedWait);
      WalkIsSound(cfg, e.handler, LoadIncident, st);
      SoundTracesJoin(cfg.graph, log, e.resolvedWait, Walk(cfg, e.handler, LoadIncident, st).trace,
                      |Added(cfg, log, e)|);
    }
  }

  /** Whatever the handlers answer, wherever the executions crash and whichever waits are resolved: every checkpoint
      extends the keys of the one before it by its own, all of them registered and distinct; the iteration never
      falls; no-progress is at most iteration + 1. */
  lemma ContractHoldsAcrossCrashes(cfg: Config, epochs: seq<Epoch>)
    ensures var log := Live(cfg, epochs);
            forall k :: 0 <= k < |log| ==>
              && Follows(log, k) && Distinct(log[k].completed)
              && (forall key <- log[k].completed :: Registered(cfg.graph, key.node))
              && log[k].noProgress <= log[k].iteration + 1
  {
    hide Live, Distinct, ContextDone;
    var log := Live(cfg, epochs);
    LivesAreSound(cfg, epochs);
    forall k | 0 <= k < |log|
      ensures Follows(log, k) && Sound(cfg.graph, Resume(log[k], false))
    {
      assert SoundAt(cfg.graph, START, log, k);
    }
  }

  lemma {:induction false} KeysOfLog(log: seq<Checkpoint>, j: nat)
    requires (forall k :: 0 <= k < |log| ==> Follows(log, k)) && j < |log|
    ensures |log[j].completed| == j + 1
    ensures forall i :: 0 <= i <= j ==> log[j].completed[i] == Key(log[i].node, log[i].iteration)
  {
    assert Follows(log, j);
    if j > 0 {
      KeysOfLog(log, j - 1);
    }
  }

  /** The keys completed at checkpoint j are those of checkpoints 0..j, in order; so over the whole life
      of a run no node execution is repeated. */
  lemma NoKeyRunsTwice(cfg: Config, epochs: seq<Epoch>, i: nat, j: nat)
    requires i < j < |Live(cfg, epochs)|
    ensures var log := Live(cfg, epochs);
            && log[i].completed <= log[j].completed
            && Key(log[i].node, log[i].iteration) != Key(log[j].node, log[j].iteration)
  {
    hide Live;
    var log := Live(cfg, epochs);
    ContractHoldsAcrossCrashes(cfg, epochs);
    KeysOfLog(log, i);
    KeysOfLog(log, j);
  }

  // ----- The order and the limit, for handlers that end properly --------------------------------------------

  /** The handler never answers `continue` at the last node. */
  ghost predicate Ends(h: Handler) {
    forall i, wanted, done :: !h(EscalateOrFinish, i, wanted, done).next.Continue?
  }

  ghost predicate GoodLog(cfg: Config, log: seq<Checkpoint>) {
    && (forall ck <- log :: Good(cfg, ck))
    && (forall k {:trigger Follows(log, k)} :: 0 <= k < |log| ==> Follows(log, k))
  }

  /** No checkpoint of the last node can divert a restart. */
  ghost predicate EndsProperly(log: seq<Checkpoint>) {
    forall ck <- log :: ck.node.EscalateOrFinish? ==> !ck.next.Continue?
  }

  lemma {:induction false} WalkEndsProperly(cfg: Config, h: Handler, n: Node, st: State)
    requires Bounded(st) && Ends(h) && (n.EscalateOrFinish? ==> !st.next.Continue?)
    ensures EndsProperly(Walk(cfg, h, n, st).trace)
    decreases Fuel(cfg, n, st), 10 - Rank(n)
  {
    var v := Visit(cfg, h, n, st);
    match Route(cfg.graph, n, v.after.next)
    case None =>
    case Some(m) => WalkEndsProperly(cfg, h, m, v.after);
  }

  /** Checkpoints that are good and form a sound trace keep the order of an uninterrupted run. */
  lemma GoodTraceExtends(cfg: Config, h: Handler, log: seq<Checkpoint>, m: Node, st: State)
    requires GoodLog(cfg, log) && Fresh(cfg, m, st) && Bounded(st)
    ensures forall ck <- log + Walk(cfg, h, m, st).trace :: Good(cfg, ck)
  {
    hide Walk, Fresh, Good;
    var trace := Walk(cfg, h, m, st).trace;
    forall k | 0 <= k < |trace| ensures Good(cfg, trace[k]) {
      TraceTail(cfg, h, m, st, k);
    }
  }

  lemma RestartExtends(cfg: Config, log: seq<Checkpoint>, h: Handler, resolvedWait: bool)
    requires cfg.maxIterations > 0 && GoodLog(cfg, log) && EndsProperly(log)
    ensures Bounded(ResumeFrom(log, resolvedWait))
    ensures forall ck <- log + Walk(cfg, h, LoadIncident, ResumeFrom(log, resolvedWait)).trace :: Good(cfg, ck)
  {
    hide Walk, Through, Visit;
    if log == [] {
      assert Fresh(cfg, LoadIncident, START);
      GoodTraceExtends(cfg, h, log, LoadIncident, START);
    } else {
      var ck := log[|log|-1];
      assert Good(cfg, ck) && ck in log;
      GoodIsBounded(cfg, ck, resolvedWait);
      var m := Route(cfg.graph, ck.node, if resolvedWait then Unset else ck.next);
      if resolvedWait {
        ResumeAfterResolvedWait(cfg, h, ck);
        if m.Some? { GoodTraceExtends(cfg, h, log, m.value, Resume(ck, true)); }
      } else {
        ResumeIsContinuation(cfg, h, ck);
        if Stuck(ck) {
          PausedReplay(cfg, h, ck);
        } else if m.Some? {
          GoodContinues(cfg, ck);
          GoodTraceExtends(cfg, h, log, m.value, StateAfter(ck));
        }
      }
    }
  }

  /** If no handler answers `continue` at the last node, every checkpoint of every life has exactly the keys of an
      uninterrupted run up to its node and stays below the iteration limit. */
  lemma {:induction false} ProperLivesKeepTheOrder(cfg: Config, epochs: seq<Epoch>)
    requires cfg.maxIterations > 0 && forall e <- epochs :: Ends(e.handler)
    ensures GoodLog(cfg, Live(cfg, epochs)) && EndsProperly(Live(cfg, epochs))
    ensures forall ck <- Live(cfg, epochs) ::
              ck.iteration < cfg.maxIterations && ck.completed == Through(cfg.graph, ck.node, ck.iteration)
  {
    hide Walk, Through, Ends, Follows;
    if epochs != [] {
      var log, e := Live(cfg, epochs[..|epochs|-1]), epochs[|epochs|-1];
      ProperLivesKeepTheOrder(cfg, epochs[..|epochs|-1]);
      RestartExtends(cfg, log, e.handler, e.resolvedWait);
      WalkEndsProperly(cfg, e.handler, LoadIncident, ResumeFrom(log, e.resolvedWait));
      assert Live(cfg, epochs) == log + Added(cfg, log, e);
    }
    ContractHoldsAcrossCrashes(cfg, epochs);
  }

  // ----- Crashes change nothing --------------------------------------------------------------------------

  /** From any prefix of the uninterrupted log, a restart writes exactly the rest. */
  lemma PrefixResumes(cfg: Config, h: Handler, log: seq<Checkpoint>)
    requires cfg.maxIterations > 0 && log <= Walk(cfg, h, LoadIncident, START).trace
    requires forall ck <- Walk(cfg, h, LoadIncident, START).trace :: !Stuck(ck)
    ensures Bounded(ResumeFrom(log, false))
    ensures log + Walk(cfg, h, LoadIncident, ResumeFrom(log, false)).trace == Walk(cfg, h, LoadIncident, START).trace
  {
    hide Walk, Good, Continuation, Stuck;
    if log != [] {
      var whole := Walk(cfg, h, LoadIncident, START).trace;
      assert whole[|log|-1] in whole;
      TraceTail(cfg, h, LoadIncident, START, |log| - 1);
      ResumeIsContinuation(cfg, h, whole[|log|-1]);
    }
  }

  /** Crashes change nothing: with no resolved wait and no stuck checkpoint, the log of any sequence of
      crashing executions is a prefix of the uninterrupted execution's, and the next execution writes
      exactly the rest of it. */
  lemma {:induction false} CrashesLeaveThePrefix(cfg: Config, h: Handler, epochs: seq<Epoch>)
    requires cfg.maxIterations > 0
    requires forall e <- epochs :: e.handler == h && !e.resolvedWait
    requires forall ck <- Walk(cfg, h, LoadIncident, START).trace :: !Stuck(ck)
    ensures var whole := Walk(cfg, h, LoadIncident, START).trace;
            var log := Live(cfg, epochs);
            && log <= whole
            && Bounded(ResumeFrom(log, false))
            && log + Walk(cfg, h, LoadIncident, ResumeFrom(log, false)).trace == whole
  {
    hide Walk, Stuck, Bounded, ResumeFrom;
    if epochs != [] {
      var log, e := Live(cfg, epochs[..|epochs|-1]), epochs[|epochs|-1];
      CrashesLeaveThePrefix(cfg, h, epochs[..|epochs|-1]);
      assert Live(cfg, epochs) == log + Added(cfg, log, e);
    }
    PrefixResumes(cfg, h, Live(cfg, epochs));
  }

  // ----- A handler that passes every limit ------------------------------------------------------------------

  /** A handler that goes on to the last node and asks for another iteration there. */
  const ENDLESS: Handler :=
    (n: Node, i: nat, wanted: NextAction, done: seq<Key>) =>
      Answer(true, if n.EscalateOrFinish? then Continue else Finish)

  /** Every registered node from `n` on is completed in its iteration. */
  ghost predicate DoneFrom(g: GraphVersion, n: Node, st: State) {
    forall m: Node :: Registered(g, m) && Rank(n) <= Rank(m) ==> Key(m, IterationOf(m, st)) in st.completed
  }

  ghost predicate UndoneFrom(g: GraphVersion, n: Node, st: State) {
    forall m: Node :: Registered(g, m) && Rank(n) <= Rank(m) ==> Key(m, IterationOf(m, st)) !in st.completed
  }

  lemma EndlessVisit(cfg: Config, n: Node, st: State) returns (ck: Checkpoint)
    requires Bounded(st) && Registered(cfg.graph, n) && cfg.noProgressLimit > 0
    requires UndoneFrom(cfg.graph, n, st) && (IsContext(n) ==> st.iteration == 0)
    ensures Visit(cfg, ENDLESS, n, st) == Executed(ck, Resume(ck, false)) && Bounded(Resume(ck, false))
    ensures ck.node == n && ck.iteration == st.iteration && ck.completed == st.completed + [Key(n, st.iteration)]
    ensures ck.next == if n.EscalateOrFinish? then Continue else Finish
    ensures !n.EscalateOrFinish? ==> UndoneFrom(cfg.graph, Following(cfg.graph, n), Resume(ck, false))
    ensures Walk(cfg, ENDLESS, n, st).trace
            == [ck] + (if n.EscalateOrFinish? then []
                       else Walk(cfg, ENDLESS, Following(cfg.graph, n), Resume(ck, false)).trace)
  {
    assert Key(n, IterationOf(n, st)) !in st.completed;
    ck := Visit(cfg, ENDLESS, n, st).checkpoint;
    assert Route(cfg.graph, n, ck.next) == if n.EscalateOrFinish? then None else Some(Following(cfg.graph, n));
  }

  lemma DoneToo(g: GraphVersion, n: Node, before: State, st: State)
    requires Registered(g, n) && !n.EscalateOrFinish? && DoneFrom(g, Following(g, n), st)
    requires Key(n, IterationOf(n, st)) in before.completed && forall k <- before.completed :: k in st.completed
    ensures DoneFrom(g, n, st)
  {
  }

  /** A pass of that handler over nodes that have not run ends with `continue` at the last node. */
  lemma {:induction false} EndlessPass(cfg: Config, n: Node, st: State)
    requires Bounded(st) && Registered(cfg.graph, n) && cfg.noProgressLimit > 0
    requires UndoneFrom(cfg.graph, n, st) && (IsContext(n) ==> st.iteration == 0)
    ensures var t := Walk(cfg, ENDLESS, n, st).trace;
            && 0 < |t| <= 11 - Rank(n) && (forall c <- t :: c.iteration == st.iteration)
            && t[|t|-1].node.EscalateOrFinish? && t[|t|-1].next.Continue?
            && DoneFrom(cfg.graph, n, Resume(t[|t|-1], false)) && Bounded(Resume(t[|t|-1], false))
            && (forall k <- st.completed :: k in t[|t|-1].completed)
    decreases 10 - Rank(n)
  {
    hide Walk, Visit, UndoneFrom, Bounded, DoneFrom;
    var ck := EndlessVisit(cfg, n, st);
    if n.EscalateOrFinish? {
      LastIsDone(cfg.graph, Resume(ck, false));
    } else {
      var m := Following(cfg.graph, n);
      EndlessPass(cfg, m, Resume(ck, false));
      var rest := Walk(cfg, ENDLESS, m, Resume(ck, false)).trace;
      assert rest[|rest|-1] == Walk(cfg, ENDLESS, n, st).trace[|rest|];
      DoneToo(cfg.graph, n, Resume(ck, false), Resume(rest[|rest|-1], false));
    }
  }

  lemma LastIsDone(g: GraphVersion, st: State)
    requires Key(EscalateOrFinish, st.iteration) in st.completed
    ensures DoneFrom(g, EscalateOrFinish, st)
  {
  }

  /** With everything completed and `continue` requested, the graph runs on to the next iteration. */
  lemma {:induction false} ReplayedPass(cfg: Config, n: Node, st: State)
    requires Bounded(st) && Registered(cfg.graph, n) && !n.EscalateOrFinish?
    requires DoneFrom(cfg.graph, LoadIncident, st) && st.next.Continue?
    ensures Bounded(st.(iteration := st.iteration + 1))
    ensures Walk(cfg, ENDLESS, n, st).trace
            == Walk(cfg, ENDLESS, SelectNextStep, st.(iteration := st.iteration + 1)).trace
    decreases 10 - Rank(n)
  {
    hide Walk;
    ReplayStep(cfg, ENDLESS, n, st);
    if !n.MaybeReplan? { ReplayedPass(cfg, Following(cfg.graph, n), st); }
  }

  /** Executions of that handler, each crashing after its last checkpoint. */
  function Endless(n: nat): seq<Epoch> {
    if n == 0 then [] else Endless(n - 1) + [Epoch(ENDLESS, false, 11)]
  }

  /** The log after n > 0 of these executions: the last checkpoint asks for iteration n. */
  ghost predicate EndlessLog(cfg: Config, log: seq<Checkpoint>, n: nat) {
    && log != [] && (forall ck <- log :: ck.iteration < n)
    && log[|log|-1].iteration == n - 1 && log[|log|-1].next.Continue?
    && Bounded(Resume(log[|log|-1], false)) && DoneFrom(cfg.graph, LoadIncident, Resume(log[|log|-1], false))
  }

  lemma NextIsUndone(g: GraphVersion, st: State)
    requires Bounded(st)
    ensures UndoneFrom(g, SelectNextStep, st.(iteration := st.iteration + 1))
  {
  }

  lemma FirstIsUndone(g: GraphVersion)
    ensures UndoneFrom(g, LoadIncident, START) && Bounded(START)
  {
  }

  lemma ContextStays(g: GraphVersion, st: State, st': State)
    requires DoneFrom(g, LoadIncident, st) && DoneFrom(g, SelectNextStep, st')
    requires forall k <- st.completed :: k in st'.completed
    ensures DoneFrom(g, LoadIncident, st')
  {
  }

  /** One more execution writes a pass in the next iteration. */
  lemma EndlessExecution(cfg: Config, log: seq<Checkpoint>, n: nat)
    requires cfg.noProgressLimit > 0 && if n == 0 then log == [] else EndlessLog(cfg, log, n)
    ensures Bounded(ResumeFrom(log, false))
    ensures var t := Walk(cfg, ENDLESS, LoadIncident, ResumeFrom(log, false)).trace;
            && 0 < |t| <= 11 && t[0].iteration == n && EndlessLog(cfg, log + t, n + 1)
  {
    hide Walk, Bounded, DoneFrom, UndoneFrom, Through;
    var st := ResumeFrom(log, false);
    if n == 0 {
      FirstIsUndone(cfg.graph);
      EndlessPass(cfg, LoadIncident, START);
    } else {
      ReplayedPass(cfg, LoadIncident, st);
      NextIsUndone(cfg.graph, st);
      EndlessPass(cfg, SelectNextStep, st.(iteration := n));
    }
    var t := Walk(cfg, ENDLESS, LoadIncident, st).trace;
    var last := t[|t|-1];
    assert (log + t)[|log + t|-1] == last && last in t;
    if n > 0 { ContextStays(cfg.graph, st, Resume(last, false)); }
  }

  lemma LastEpoch(cfg: Config, epochs: seq<Epoch>, e: Epoch)
    ensures Live(cfg, epochs + [e]) == Live(cfg, epochs) + Added(cfg, Live(cfg, epochs), e)
    ensures Live(cfg, []) == []
  {
    assert (epochs + [e])[..|epochs + [e]|-1] == epochs;
  }

  /** Execution n of that handler runs in iteration n - 1, whatever the limit of the run. */
  lemma {:induction false} EndlessLife(cfg: Config, n: nat)
    requires cfg.noProgressLimit > 0
    ensures if n == 0 then Live(cfg, Endless(n)) == [] else EndlessLog(cfg, Live(cfg, Endless(n)), n)
  {
    hide Walk, Bounded, EndlessLog, Live;
    LastEpoch(cfg, [], Epoch(ENDLESS, false, 11));
    if n > 0 {
      EndlessLife(cfg, n - 1);
      var log := Live(cfg, Endless(n - 1));
      EndlessExecution(cfg, log, n - 1);
      var t := Walk(cfg, ENDLESS, LoadIncident, ResumeFrom(log, false)).trace;
      assert t[..|t|] == t;
      LastEpoch(cfg, Endless(n - 1), Epoch(ENDLESS, false, 11));
    }
  }

  /** For every limit of a run there is a life of it in which the executor writes a checkpoint beyond the limit:
      maxIterations + 1 executions that each crash after `continue` of the last node, and one checkpoint more. */
  lemma LimitIsPassed(cfg: Config)
    requires cfg.noProgressLimit > 0
    ensures var before := Live(cfg, Endless(cfg.maxIterations + 1));
            var log := Live(cfg, Endless(cfg.maxIterations + 1) + [Epoch(ENDLESS, false, 1)]);
            && |log| == |before| + 1 && before <= log && log[|before|].iteration == cfg.maxIterations + 1
            && forall ck <- before :: ck.iteration <= cfg.maxIterations
  {
    hide Walk, Bounded, Live;
    var n := cfg.maxIterations + 1;
    EndlessLife(cfg, n);
    EndlessExecution(cfg, Live(cfg, Endless(n)), n);
    LastEpoch(cfg, Endless(n), Epoch(ENDLESS, false, 1));
  }
}
