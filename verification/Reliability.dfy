/** The connector circuit breaker, the retry policy and the retry loop with a deadline
    (runner/opspilot_runner/reliability.py, runner/opspilot_runner/registry.py). */
module Reliability {
  import opened Common

  // ----- The circuit breaker ----------------------------------------------------------------------------

  /** A call of the breaker that changed it; a refused `before_call` changes nothing. */
  datatype Event = Probed | Succeeded | Failed(retryable: bool, at: real) | Abandoned

  predicate Counts(e: Event) {
    e.Failed? && e.retryable
  }

  /** The retryable failures since the last success. */
  function FailuresSince(history: seq<Event>): nat {
    if history == [] then 0
    else
      var last := history[|history|-1];
      if last.Succeeded? then 0 else FailuresSince(history[..|history|-1]) + (if Counts(last) then 1 else 0)
  }

  /** The time of the last of them. */
  function LastFailure(history: seq<Event>): Option<real> {
    if history == [] then None
    else
      var last := history[|history|-1];
      if last.Succeeded? then None else if Counts(last) then Some(last.at) else LastFailure(history[..|history|-1])
  }

  function OpenedAt(history: seq<Event>, threshold: nat): Option<real> {
    if FailuresSince(history) >= threshold then LastFailure(history) else None
  }

  /** A probe is in flight until the next call of the breaker. */
  predicate Probing(history: seq<Event>) {
    history != [] && history[|history|-1].Probed?
  }

  /** What is left of the recovery interval after the last failure. */
  function Remaining(history: seq<Event>, recovery: real, now: real): real
    requires LastFailure(history).Some?
  {
    Max(0.0, recovery - (now - LastFailure(history).value))
  }

  function Max(a: real, b: real): real {
    if b > a then b else a
  }

  lemma Appended(history: seq<Event>, e: Event)
    ensures FailuresSince(history + [e])
            == if e.Succeeded? then 0 else FailuresSince(history) + (if Counts(e) then 1 else 0)
    ensures LastFailure(history + [e])
            == if e.Succeeded? then None else if Counts(e) then Some(e.at) else LastFailure(history)
  {
    assert (history + [e])[..|history + [e]|-1] == history;
  }

  /** No success came after event i. */
  predicate Unforgiven(history: seq<Event>, i: nat) {
    i < |history| && Counts(history[i]) && forall j :: i < j < |history| ==> !history[j].Succeeded?
  }

  /** The count is the number of retryable failures that no success followed, and the recovery interval runs from the
      last of these. */
  lemma {:induction false} FailuresAreCounted(history: seq<Event>)
    ensures FailuresSince(history) == |set i: nat | i < |history| && Unforgiven(history, i)|
    ensures LastFailure(history).None? <==> forall i: nat :: !Unforgiven(history, i)
    ensures LastFailure(history).Some? ==>
              exists i: nat :: Unforgiven(history, i) && history[i].at == LastFailure(history).value
                               && forall j: nat :: Unforgiven(history, j) ==> j <= i
  {
    var open := set i: nat | i < |history| && Unforgiven(history, i);
    if history == [] {
      assert open == {};
    } else {
      var n := |history| - 1;
      var before := history[..n];
      FailuresAreCounted(before);
      var earlier := set i: nat | i < n && Unforgiven(before, i);
      EarlierFailures(history);
      if history[n].Succeeded? {
        assert open == {};
      } else if Counts(history[n]) {
        assert open == earlier + {n} && Unforgiven(history, n);
      } else {
        assert open == earlier;
      }
    }
  }

  lemma EarlierFailures(history: seq<Event>)
    requires history != []
    ensures var n := |history| - 1;
            forall i: nat ::
              Unforgiven(history, i) <==>
                if i == n then Counts(history[n]) else Unforgiven(history[..n], i) && !history[n].Succeeded?
  {
    var n := |history| - 1;
    forall i: nat
      ensures Unforgiven(history, i) <==>
                if i == n then Counts(history[n]) else Unforgiven(history[..n], i) && !history[n].Succeeded?
    {
      if i < n {
        assert history[..n][i] == history[i];
        if Unforgiven(history, i) { assert forall j :: i < j < n ==> history[..n][j] == history[j]; }
        if Unforgiven(history[..n], i) { assert forall j :: i < j < n ==> history[j] == history[..n][j]; }
      }
    }
  }

  datatype Admission = Plain | Probe | Open(retryAfter: real)

  datatype CircuitState = Closed | OpenCircuit | HalfOpen

  class ConnectorCircuitBreaker {
    const threshold: nat
    const recovery: real
    var consecutiveFailures: nat
    var openedAt: Option<real>
    var probeInFlight: bool
    ghost var history: seq<Event>

    /** The state is a function of the history: the failures count since the last success, the circuit is open
        since the last of them exactly when they have reached the threshold, and a probe is in flight exactly when
        its admission was the last event. */
    ghost predicate Valid()
      reads this
    {
      && threshold >= 1 && recovery > 0.0
      && consecutiveFailures == FailuresSince(history)
      && openedAt == OpenedAt(history, threshold)
      && (openedAt.Some? <==> FailuresSince(history) >= threshold)
      && (probeInFlight <==> Probing(history))
      && (probeInFlight ==> openedAt.Some?)
    }

    constructor (threshold: nat, recovery: real)
      requires threshold >= 1 && recovery > 0.0
      ensures Valid() && history == [] && !probeInFlight && this.threshold == threshold && this.recovery == recovery
    {
      this.threshold, this.recovery := threshold, recovery;
      consecutiveFailures, openedAt, probeInFlight, history := 0, None, false, [];
    }

    method BeforeCall(now: real) returns (admission: Admission)
      requires Valid()
      modifies this
      ensures Valid()
      ensures admission.Plain? <==> FailuresSince(old(history)) < threshold
      ensures admission.Probe? <==>
                FailuresSince(old(history)) >= threshold && !Probing(old(history))
                && now - LastFailure(old(history)).value >= recovery
      ensures history == if admission.Probe? then old(history) + [Probed] else old(history)
      ensures admission.Open? ==> admission.retryAfter == Remaining(old(history), recovery, now)
    {
      if openedAt.None? { return Plain; }
      var elapsed := now - openedAt.value;
      if elapsed < recovery || probeInFlight {
        return Open(Max(0.0, recovery - elapsed));
      }
      Appended(history, Probed);
      probeInFlight := true;
      history := history + [Probed];
      return Probe;
    }

    method RecordSuccess()
      requires Valid()
      modifies this
      ensures Valid() && history == old(history) + [Succeeded]
    {
      Appended(history, Succeeded);
      consecutiveFailures, openedAt, probeInFlight := 0, None, false;
      history := history + [Succeeded];
    }

    method RecordFailure(retryable: bool, now: real)
      requires Valid()
      modifies this
      ensures Valid() && history == old(history) + [Failed(retryable, now)]
    {
      Appended(history, Failed(retryable, now));
      history := history + [Failed(retryable, now)];
      if !retryable {
        probeInFlight := false;
        return;
      }
      consecutiveFailures := consecutiveFailures + 1;
      if probeInFlight || consecutiveFailures >= threshold {
        openedAt := Some(now);
        probeInFlight := false;
      }
    }

    /** A probe is only in flight once the threshold is reached, so the first disjunct of `RecordFailure` never
        decides whether the circuit opens. */
    lemma ProbeDecidesNothing()
      requires Valid()
      ensures probeInFlight || consecutiveFailures + 1 >= threshold <==> consecutiveFailures + 1 >= threshold
    {
    }

    method AbandonCall()
      requires Valid()
      modifies this
      ensures Valid() && history == old(history) + [Abandoned]
    {
      Appended(history, Abandoned);
      probeInFlight := false;
      history := history + [Abandoned];
    }

    method Snapshot(now: real) returns (state: CircuitState, failures: nat, retryAfter: real)
      requires Valid()
      ensures failures == FailuresSince(history)
      ensures state.Closed? <==> FailuresSince(history) < threshold
      ensures retryAfter == if state.Closed? then 0.0 else Remaining(history, recovery, now)
      ensures state.HalfOpen? <==>
                FailuresSince(history) >= threshold && now - LastFailure(history).value >= recovery
    {
      if openedAt.None? { return Closed, consecutiveFailures, 0.0; }
      var elapsed := now - openedAt.value;
      retryAfter := Max(0.0, recovery - elapsed);
      return if retryAfter == 0.0 then HalfOpen else OpenCircuit, consecutiveFailures, retryAfter;
    }
  }

  // ----- The retry policy ---------------------------------------------------------------------------------

  datatype RetryPolicy = RetryPolicy(maxAttempts: nat, base: real, max: real, jitter: real)

  /** `__post_init__`. */
  predicate Acceptable(p: RetryPolicy) {
    p.maxAttempts >= 1 && 0.0 < p.base <= p.max && 0.0 <= p.jitter <= 1.0
  }

  function Pow2(n: nat): (r: real)
    ensures r >= 1.0
  {
    if n == 0 then 1.0 else 2.0 * Pow2(n - 1)
  }

  function Min(a: real, b: real): real {
    if a <= b then a else b
  }

  function Exponential(p: RetryPolicy, failure: nat): real {
    Min(p.max, p.base * Pow2(if failure == 0 then 0 else failure - 1))
  }

  function Factor(p: RetryPolicy, sample: real): real {
    var bounded := Min(1.0, if sample < 0.0 then 0.0 else sample);
    1.0 - p.jitter + 2.0 * p.jitter * bounded
  }

  function Times(x: real, y: real): real {
    x * y
  }

  function Delay(p: RetryPolicy, failure: nat, sample: real): real {
    Times(Exponential(p, failure), Factor(p, sample))
  }

  lemma Product(x: real, y: real)
    requires 0.0 <= x && 0.0 <= y
    ensures 0.0 <= Times(x, y)
  {
  }

  lemma Distributes(x: real, a: real, b: real)
    ensures Times(x, a + b) == Times(x, a) + Times(x, b)
  {
  }

  lemma Scales(x: real, a: real, b: real)
    requires 0.0 <= x && a <= b
    ensures Times(x, a) <= Times(x, b)
  {
    hide Times;
    Product(x, b - a);
    Distributes(x, a, b - a);
    assert a + (b - a) == b;
  }

  lemma FactorIsBounded(p: RetryPolicy, sample: real)
    requires Acceptable(p)
    ensures 0.0 <= 1.0 - p.jitter <= Factor(p, sample) <= 1.0 + p.jitter
  {
    var bounded := Min(1.0, if sample < 0.0 then 0.0 else sample);
    Product(2.0 * p.jitter, bounded);
    Scales(2.0 * p.jitter, bounded, 1.0);
    assert Factor(p, sample) == 1.0 - p.jitter + Times(2.0 * p.jitter, bounded);
    assert Times(2.0 * p.jitter, 1.0) == 2.0 * p.jitter;
  }

  lemma Positive(p: RetryPolicy, failure: nat)
    requires Acceptable(p)
    ensures 0.0 < Exponential(p, failure) <= p.max
    ensures failure > 0 ==> Exponential(p, failure) <= p.base * Pow2(failure - 1)
  {
    var n := if failure == 0 then 0 else failure - 1;
    Scales(p.base, 1.0, Pow2(n));
    assert Times(p.base, 1.0) == p.base && Times(p.base, Pow2(n)) == p.base * Pow2(n);
  }

  /** Whatever the random sample, a delay stays within the jitter around the capped exponential. */
  lemma DelayIsBounded(p: RetryPolicy, failure: nat, sample: real)
    requires Acceptable(p)
    ensures Times(Exponential(p, failure), 1.0 - p.jitter) <= Delay(p, failure, sample)
    ensures 0.0 <= Delay(p, failure, sample) <= Times(Exponential(p, failure), 1.0 + p.jitter)
  {
    hide Exponential, Factor, Times;
    FactorIsBounded(p, sample);
    Positive(p, failure);
    Scales(Exponential(p, failure), 1.0 - p.jitter, Factor(p, sample));
    Scales(Exponential(p, failure), Factor(p, sample), 1.0 + p.jitter);
    Product(Exponential(p, failure), Factor(p, sample));
  }

  /** The wait after failure n >= 1 without a cap: the base, doubled with every further failure. */
  function Doubled(base: real, n: nat): real
    requires n >= 1
  {
    if n == 1 then base else Doubled(base, n - 1) + Doubled(base, n - 1)
  }

  /** The same, capped. */
  function Capped(p: RetryPolicy, n: nat): real
    requires n >= 1
  {
    if Doubled(p.base, n) > p.max then p.max else Doubled(p.base, n)
  }

  lemma {:induction false} DoubledIsPower(base: real, n: nat)
    requires n >= 1
    ensures Doubled(base, n) == base * Pow2(n - 1)
  {
    if n > 1 { DoubledIsPower(base, n - 1); }
  }

  lemma ExponentialIsCapped(p: RetryPolicy, n: nat)
    ensures Exponential(p, n) == Capped(p, if n == 0 then 1 else n)
  {
    var m := if n == 0 then 1 else n;
    DoubledIsPower(p.base, m);
    var power := p.base * Pow2(m - 1);
    assert Exponential(p, n) == Min(p.max, power) by {
      assert Pow2(if n == 0 then 0 else n - 1) == Pow2(m - 1);
    }
  }

  /** A delay is the capped and doubled base delay, less the jitter at a sample of 0 or below, plus the jitter at a
      sample of 1 or above, and in between in proportion to the sample; so without jitter it is that delay. */
  lemma DelayIsBackoff(p: RetryPolicy, failure: nat, sample: real)
    requires Acceptable(p)
    ensures var backoff := Capped(p, if failure == 0 then 1 else failure);
            && (p.jitter == 0.0 ==> Delay(p, failure, sample) == backoff)
            && (sample <= 0.0 ==> Delay(p, failure, sample) == backoff * (1.0 - p.jitter))
            && (sample >= 1.0 ==> Delay(p, failure, sample) == backoff * (1.0 + p.jitter))
            && (0.0 <= sample <= 1.0 ==>
                  Delay(p, failure, sample) == backoff * (1.0 - p.jitter) + backoff * (2.0 * p.jitter * sample))
  {
    ExponentialIsCapped(p, failure);
    if p.jitter == 0.0 { assert Factor(p, sample) == 1.0; }
    if 0.0 <= sample <= 1.0 {
      Distributes(Exponential(p, failure), 1.0 - p.jitter, 2.0 * p.jitter * sample);
    }
  }

  /** As long as the cap is not reached, each delay is twice the one before for equal samples. */
  lemma DelaysDouble(p: RetryPolicy, n: nat, sample: real)
    requires Acceptable(p) && n >= 1 && Doubled(p.base, n + 1) <= p.max
    ensures Delay(p, n + 1, sample) == 2.0 * Delay(p, n, sample)
  {
    ExponentialIsCapped(p, n);
    ExponentialIsCapped(p, n + 1);
    DoubledIsPower(p.base, n);
    Scales(p.base, 1.0, Pow2(n - 1));
    Distributes(Factor(p, sample), Exponential(p, n), Exponential(p, n));
    Commutes(Factor(p, sample), Exponential(p, n));
    Commutes(Factor(p, sample), Exponential(p, n + 1));
  }

  /** The waits after n failures together, without jitter. */
  function Backoffs(p: RetryPolicy, n: nat): real {
    if n == 0 then 0.0 else Backoffs(p, n - 1) + Capped(p, n)
  }

  /** The longest that n failed attempts can sleep before jitter: each waits at most the maximum, and the waits
      double. */
  function Budget(p: RetryPolicy, n: nat): real {
    Min(n as real * p.max, p.base * (Pow2(n) - 1.0))
  }

  lemma BudgetGrows(p: RetryPolicy, n: nat)
    requires Acceptable(p)
    ensures Budget(p, n) + Exponential(p, n + 1) <= Budget(p, n + 1)
  {
    hide Exponential;
    Positive(p, n + 1);
    assert p.base * (Pow2(n + 1) - 1.0) == p.base * (Pow2(n) - 1.0) + p.base * Pow2(n);
    assert (n + 1) as real * p.max == n as real * p.max + p.max;
  }

  /** The total sleep of a sequence of samples. */
  function Slept(p: RetryPolicy, samples: seq<real>): real {
    if samples == [] then 0.0
    else Slept(p, samples[..|samples|-1]) + Delay(p, |samples|, samples[|samples|-1])
  }

  /** n + 1 attempts sleep n times, together within the jitter around the capped and doubled base delays, and so at most
      (1 + jitter) times the smaller of n maximal delays and the doubled base delays. */
  lemma {:induction false} SleepIsBounded(p: RetryPolicy, samples: seq<real>)
    requires Acceptable(p)
    ensures 0.0 <= Slept(p, samples) <= Times(1.0 + p.jitter, Budget(p, |samples|))
    ensures Times(1.0 - p.jitter, Backoffs(p, |samples|)) <= Slept(p, samples)
            <= Times(1.0 + p.jitter, Backoffs(p, |samples|))
  {
    hide Delay, Exponential, Budget, Times, Capped;
    if samples == [] {
      NoBudget(p);
    } else {
      var n := |samples| - 1;
      SleepIsBounded(p, samples[..n]);
      ExponentialIsCapped(p, n + 1);
      Distributes(1.0 + p.jitter, Backoffs(p, n), Capped(p, n + 1));
      Distributes(1.0 - p.jitter, Backoffs(p, n), Capped(p, n + 1));
      Commutes(Exponential(p, n + 1), 1.0 - p.jitter);
      DelayIsBounded(p, n + 1, samples[n]);
      BudgetGrows(p, n);
      Scales(1.0 + p.jitter, Budget(p, n) + Exponential(p, n + 1), Budget(p, n + 1));
      Distributes(1.0 + p.jitter, Budget(p, n), Exponential(p, n + 1));
      Commutes(Exponential(p, n + 1), 1.0 + p.jitter);
    }
  }

  lemma Commutes(x: real, y: real)
    ensures Times(x, y) == Times(y, x)
  {
  }

  lemma NoBudget(p: RetryPolicy)
    requires Acceptable(p)
    ensures Times(1.0 + p.jitter, Budget(p, 0)) == 0.0
    ensures Times(1.0 + p.jitter, Backoffs(p, 0)) == 0.0 && Times(1.0 - p.jitter, Backoffs(p, 0)) == 0.0
  {
    assert Budget(p, 0) == 0.0;
  }

  // ----- The retry loop ---------------------------------------------------------------------------------------

  predicate FoundAt(code: string, part: string, i: nat) {
    i + |part| <= |code| && code[i..i + |part|] == part
  }

  predicate Contains(code: string, part: string) {
    exists i: nat | i <= |code| :: FoundAt(code, part, i)
  }

  const NON_RETRYABLE: seq<string> := [
    "INVALID", "NOT_ALLOWED", "OUTSIDE_ALLOWED", "NOT_FOUND", "NOT_AVAILABLE", "NOT_CONFIGURED", "UNSUPPORTED",
    "UNSAFE", "TOO_LARGE", "BINARY_LOG_REJECTED"]

  /** `is_retryable_connector_error`. */
  predicate Retryable(code: string) {
    forall part :: part in NON_RETRYABLE ==> !Contains(code, part)
  }

  const TIMEOUT := "CONNECTOR_TIMEOUT"

  /** How one connector call ends. */
  datatype CallEnd = Result | TimedOut | ConnectorError(code: string) | Unexpected | Cancelled

  /** One attempt: how long the call takes, how it ends, the random sample of the delay, and the time after which
      the sleep is cancelled, if it is. */
  datatype Attempt = Attempt(duration: real, end: CallEnd, sample: real, cancelSleep: Option<real>)

  datatype Exit = Returned | Raised(code: string) | Reraised | CancelledExit | CircuitOpen | FellThrough

  datatype Call = Call(begun: real, duration: real)

  /** The error of an attempt that failed in a way the loop handles. */
  function ErrorCode(end: CallEnd): string {
    if end.ConnectorError? then end.code else TIMEOUT
  }

  predicate TriedAgain(end: CallEnd) {
    (end.TimedOut? || end.ConnectorError?) && Retryable(ErrorCode(end))
  }

  /** A code that contains a part has all its characters. */
  lemma ContainedCharacter(code: string, part: string, k: nat)
    requires k < |part|
    ensures Contains(code, part) ==> part[k] in code
  {
    if Contains(code, part) {
      var i: nat :| i <= |code| && FoundAt(code, part, i);
      assert code[i + k] == part[k];
    }
  }

  /** A call that timed out is tried again. */
  lemma TimeoutsAreTriedAgain()
    ensures TriedAgain(TimedOut)
  {
    hide Contains;
    var missing := [2, 4, 3, 4, 4, 7, 2, 2, 4, 0];
    forall n | 0 <= n < |NON_RETRYABLE| ensures !Contains(TIMEOUT, NON_RETRYABLE[n]) {
      ContainedCharacter(TIMEOUT, NON_RETRYABLE[n], missing[n]);
    }
  }

  /** The calls and the samples follow the script: attempt by attempt, each failing in a retryable way. */
  ghost predicate Followed(script: seq<Attempt>, calls: seq<Call>, samples: seq<real>) {
    && |samples| <= |calls| <= |script|
    && (forall k :: 0 <= k < |calls| ==> calls[k].duration == script[k].duration)
    && (forall k :: 0 <= k < |samples| ==> samples[k] == script[k].sample && TriedAgain(script[k].end))
  }

  /** Why the last attempt, failing with a code the loop handles, was the last: the error is not retryable, no
      attempt is left, the delay would reach the deadline, or the sleep was cancelled. */
  predicate GivesUp(p: RetryPolicy, last: Attempt, n: nat, attempts: nat, deadline: real, end: real, code: string,
                    exit: Exit)
  {
    match exit
    case Raised(c) =>
      c == code && (!Retryable(code) || n + 1 == attempts || Delay(p, n + 1, last.sample) >= deadline - end)
    case CancelledExit =>
      && Retryable(code) && n + 1 < attempts && last.cancelSleep.Some?
      && last.cancelSleep.value < Delay(p, n + 1, last.sample) < deadline - (end - last.cancelSleep.value)
    case _ => false
  }

  /** The exit is the one the last attempt calls for. */
  ghost predicate Explained(p: RetryPolicy, script: seq<Attempt>, attempts: nat, deadline: real, exit: Exit, end: real,
                            calls: seq<Call>, samples: seq<real>)
  {
    var n := |samples|;
    && Followed(script, calls, samples) && n < attempts <= |script|
    && if |calls| == n then end >= deadline && GivesUp(p, script[n], n, attempts, deadline, end, TIMEOUT, exit)
       else
         && |calls| == n + 1
         && match script[n].end
            case Result => exit.Returned?
            case Unexpected => exit.Reraised?
            case Cancelled => exit.CancelledExit?
            case _ => GivesUp(p, script[n], n, attempts, deadline, end, ErrorCode(script[n].end), exit)
  }

  function Admitted(history: seq<Event>, threshold: nat): seq<Event> {
    if FailuresSince(history) >= threshold then history + [Probed] else history
  }

  /** One record after the admission: a success for a result, an abandonment for a cancellation, a failure at the
      time of the exit for everything else. */
  function RecordOf(exit: Exit, end: real): Event {
    match exit
    case Returned => Succeeded
    case Raised(code) => Failed(Retryable(code), end)
    case Reraised => Failed(true, end)
    case _ => Abandoned
  }

  /** What one execution adds to the failures of its circuit: a result forgives all of them, a cancellation adds none,
      and an error adds one unless its code names a kind of error that a retry cannot help. */
  lemma ExitCounts(history: seq<Event>, threshold: nat, exit: Exit, end: real)
    ensures FailuresSince(Admitted(history, threshold) + [RecordOf(exit, end)]) ==
            match exit
            case Returned => 0
            case Raised(code) =>
              FailuresSince(history) + (if exists part :: part in NON_RETRYABLE && Contains(code, part) then 0 else 1)
            case Reraised => FailuresSince(history) + 1
            case _ => FailuresSince(history)
  {
    hide Contains;
    Appended(history, Probed);
    Appended(Admitted(history, threshold), RecordOf(exit, end));
  }

  class ConnectorRegistry {
    const policy: RetryPolicy
    const circuit: ConnectorCircuitBreaker

    constructor (policy: RetryPolicy, circuit: ConnectorCircuitBreaker)
      ensures this.policy == policy && this.circuit == circuit
    {
      this.policy, this.circuit := policy, circuit;
    }

    /** `execute` of an advertised operation. `script` tells what the connector and the random source do. An
        admitted execution follows the script up to the first attempt that is not tried again, records exactly one
        success, failure or abandonment, calls the connector at most `maxAttempts` times (once for a probe) and
        never after its deadline, never falls through, and ends by its deadline when every call respects its
        timeout. */
    method Execute(start: real, timeout: real, script: seq<Attempt>)
      returns (exit: Exit, end: real, calls: seq<Call>, samples: seq<real>)
      requires Acceptable(policy) && circuit.Valid() && |script| >= policy.maxAttempts
      requires forall k :: 0 <= k < |script| ==>
                 && 0.0 <= script[k].duration
                 && (script[k].cancelSleep.Some? ==> 0.0 <= script[k].cancelSleep.value)
      modifies circuit
      ensures circuit.Valid() && !exit.FellThrough?
      ensures exit.CircuitOpen? <==>
                FailuresSince(old(circuit.history)) >= circuit.threshold
                && (Probing(old(circuit.history))
                    || start - LastFailure(old(circuit.history)).value < circuit.recovery)
      ensures !exit.CircuitOpen? ==>
                Explained(policy, script,
                  if FailuresSince(old(circuit.history)) >= circuit.threshold then 1 else policy.maxAttempts,
                  start + timeout, exit, end, calls, samples)
      ensures exit.CircuitOpen? ==> circuit.history == old(circuit.history) && calls == [] && end == start
      ensures !exit.CircuitOpen? ==>
                circuit.history == Admitted(old(circuit.history), circuit.threshold) + [RecordOf(exit, end)]
      ensures BegunInTime(calls, start, start + timeout)
      ensures timeout >= 0.0 && RespectTimeout(calls, start + timeout) ==> end <= start + timeout
      ensures !exit.CancelledExit? ==> end == start + Worked(calls) + Slept(policy, samples)
    {
      hide Retryable, Contains, Delay, Times, Exponential, Pow2, Factor, Min, Max, Counts, FailuresSince, LastFailure,
        Probing, Remaining, OpenedAt, BegunInTime, RespectTimeout, Worked, Slept, Followed, Explained, TriedAgain;
      NothingYet(policy);
      NothingFollowed(script, start, start + timeout);
      calls, samples, end := [], [], start;
      var admission := circuit.BeforeCall(start);
      if admission.Open? { return CircuitOpen, end, calls, samples; }
      ghost var admitted := circuit.history;
      var deadline := start + timeout;
      var maxAttempts := if admission.Probe? then 1 else policy.maxAttempts;
      for attempt := 1 to maxAttempts + 1
        invariant circuit.Valid() && circuit.history == admitted
        invariant |calls| == |samples| == attempt - 1 < maxAttempts && Followed(script, calls, samples)
        invariant start <= end
        invariant BegunInTime(calls, start, deadline)
        invariant timeout >= 0.0 && RespectTimeout(calls, deadline) ==> end <= deadline
        invariant end == start + Worked(calls) + Slept(policy, samples)
      {
        var now := script[attempt - 1];
        var remaining := deadline - end;
        var code := TIMEOUT;
        if remaining > 0.0 {
          WorkedMore(calls, Call(end, now.duration));
          FollowedMore(script, calls, samples, end);
          BegunMore(calls, start, deadline, Call(end, now.duration));
          calls := calls + [Call(end, now.duration)];
          end := end + now.duration;
          match now.end {
            case Result =>
              circuit.RecordSuccess();
              CallDecides(policy, script, maxAttempts, deadline, Returned, end, calls, samples);
              return Returned, end, calls, samples;
            case Unexpected =>
              circuit.RecordFailure(true, end);
              CallDecides(policy, script, maxAttempts, deadline, Reraised, end, calls, samples);
              return Reraised, end, calls, samples;
            case Cancelled =>
              circuit.AbandonCall();
              CallDecides(policy, script, maxAttempts, deadline, CancelledExit, end, calls, samples);
              return CancelledExit, end, calls, samples;
            case TimedOut =>
            case ConnectorError(c) => code := c;
          }
        }
        var retryable := Retryable(code);
        if !retryable || attempt >= maxAttempts {
          circuit.RecordFailure(retryable, end);
          GivenUp(policy, script, maxAttempts, deadline, Raised(code), end, calls, samples, code);
          return Raised(code), end, calls, samples;
        }
        var delay := Delay(policy, attempt, now.sample);
        DelayIsBounded(policy, attempt, now.sample);
        if delay >= deadline - end {
          circuit.RecordFailure(true, end);
          GivenUp(policy, script, maxAttempts, deadline, Raised(code), end, calls, samples, code);
          return Raised(code), end, calls, samples;
        }
        if now.cancelSleep.Some? && now.cancelSleep.value < delay {
          end := end + now.cancelSleep.value;
          circuit.AbandonCall();
          GivenUp(policy, script, maxAttempts, deadline, CancelledExit, end, calls, samples, code);
          return CancelledExit, end, calls, samples;
        }
        end := end + delay;
        SleptMore(policy, samples, now.sample);
        TriedOnceMore(script, calls, samples);
        samples := samples + [now.sample];
      }
      return FellThrough, end, calls, samples;
    }
  }

  lemma NothingFollowed(script: seq<Attempt>, start: real, deadline: real)
    ensures Followed(script, [], []) && BegunInTime([], start, deadline)
  {
  }

  lemma FollowedMore(script: seq<Attempt>, calls: seq<Call>, samples: seq<real>, begun: real)
    requires Followed(script, calls, samples) && |calls| < |script|
    ensures Followed(script, calls + [Call(begun, script[|calls|].duration)], samples)
  {
  }

  lemma TriedOnceMore(script: seq<Attempt>, calls: seq<Call>, samples: seq<real>)
    requires Followed(script, calls, samples) && |calls| == |samples| + 1 <= |script|
    requires script[|samples|].end.TimedOut? || script[|samples|].end.ConnectorError?
    requires Retryable(ErrorCode(script[|samples|].end))
    ensures Followed(script, calls, samples + [script[|samples|].sample])
  {
  }

  lemma CallDecides(p: RetryPolicy, script: seq<Attempt>, attempts: nat, deadline: real, exit: Exit, end: real,
                    calls: seq<Call>, samples: seq<real>)
    requires Followed(script, calls, samples) && |calls| == |samples| + 1 && |samples| < attempts <= |script|
    requires match script[|samples|].end
             case Result => exit.Returned?
             case Unexpected => exit.Reraised?
             case Cancelled => exit.CancelledExit?
             case _ => false
    ensures Explained(p, script, attempts, deadline, exit, end, calls, samples)
  {
  }

  lemma GivenUp(p: RetryPolicy, script: seq<Attempt>, attempts: nat, deadline: real, exit: Exit, end: real,
                calls: seq<Call>, samples: seq<real>, code: string)
    requires Followed(script, calls, samples) && |samples| < attempts <= |script|
    requires GivesUp(p, script[|samples|], |samples|, attempts, deadline, end, code, exit)
    requires if |calls| == |samples| then end >= deadline && code == TIMEOUT
             else
               && |calls| == |samples| + 1 && code == ErrorCode(script[|samples|].end)
               && (script[|samples|].end.TimedOut? || script[|samples|].end.ConnectorError?)
    ensures Explained(p, script, attempts, deadline, exit, end, calls, samples)
  {
  }

  /** The time spent in calls. */
  function Worked(calls: seq<Call>): real {
    if calls == [] then 0.0 else Worked(calls[..|calls|-1]) + calls[|calls|-1].duration
  }

  lemma NothingYet(p: RetryPolicy)
    ensures Worked([]) == 0.0 && Slept(p, []) == 0.0
  {
  }

  lemma WorkedMore(calls: seq<Call>, c: Call)
    ensures Worked(calls + [c]) == Worked(calls) + c.duration
  {
    assert (calls + [c])[..|calls + [c]|-1] == calls;
  }

  lemma SleptMore(p: RetryPolicy, samples: seq<real>, sample: real)
    ensures Slept(p, samples + [sample]) == Slept(p, samples) + Delay(p, |samples| + 1, sample)
  {
    assert (samples + [sample])[..|samples + [sample]|-1] == samples;
  }

  predicate BegunInTime(calls: seq<Call>, start: real, deadline: real) {
    forall c :: c in calls ==> start <= c.begun < deadline
  }

  lemma BegunMore(calls: seq<Call>, start: real, deadline: real, c: Call)
    requires BegunInTime(calls, start, deadline) && start <= c.begun < deadline
    ensures BegunInTime(calls + [c], start, deadline)
    ensures RespectTimeout(calls + [c], deadline) ==> c.begun + c.duration <= deadline
  {
    assert (calls + [c])[|calls|] == c;
  }

  /** No call takes longer than the time that remained for it. */
  predicate RespectTimeout(calls: seq<Call>, deadline: real) {
    forall c :: c in calls ==> c.begun + c.duration <= deadline
  }
}
