/**
 * The resilience core: a three-state circuit breaker, a bounded retry loop
 * with capped exponential backoff, a health check with auto-heal, and the
 * orchestrator that runs every retry attempt through the breaker and keeps an
 * append-only history of terminal failures.
 *
 * The wrapped operation is an abstract outcome per attempt (`op(a)` is what
 * the operation yields if it is invoked on attempt `a`); the clock and the
 * jitter draw are parameters (`clock(a)`, `draw(a)`).
 */
module Resilience {
  import opened Wrappers
  import opened Reals

  // ---------------------------------------------------------------------------
  // Outcomes and errors
  // ---------------------------------------------------------------------------

  datatype CircuitState = Closed | Open | HalfOpen

  /** The enum's string value, as `get_system_status` reports it. */
  function StateValue(s: CircuitState): string
  {
    match s
    case Closed => "CLOSED"
    case Open => "OPEN"
    case HalfOpen => "HALF_OPEN"
  }

  datatype Error =
    | Raised(message: string)  // an exception raised by the wrapped operation
    | CircuitOpenError         // the breaker's own rejection: the operation was not invoked

  /** `str(e)` of an error. */
  function ErrorText(e: Error): string
  {
    match e
    case Raised(m) => m
    case CircuitOpenError => "Circuit breaker OPEN"
  }

  /** What one invocation produces: a value, or a raised error. */
  datatype Outcome<+T> = Ok(value: T) | Err(error: Error)

  // ---------------------------------------------------------------------------
  // Circuit breaker: pure transition model
  // ---------------------------------------------------------------------------

  /** The mutable part of a breaker: `state`, `failure_count`, `last_failure_time`. */
  datatype Breaker = Breaker(state: CircuitState, failureCount: nat, lastFailureTime: Option<real>)

  /**
   * The breaker invariant: a breaker that is not closed has reached the
   * threshold and has a recorded failure time; a closed breaker is below the
   * threshold or has just been reset.
   */
  predicate Inv(b: Breaker, threshold: int)
  {
    && (b.state != Closed ==> b.failureCount >= threshold && b.lastFailureTime.Some?)
    && (b.state == Closed ==> b.failureCount == 0 || b.failureCount < threshold)
  }

  /** The invariant as observed between calls: the breaker is never left half-open. */
  predicate Settled(b: Breaker, threshold: int)
  {
    Inv(b, threshold) && b.state != HalfOpen
  }

  /** `_should_attempt_reset`: no failure recorded, or the recovery timeout has elapsed since the last one. */
  function ShouldAttemptReset(lastFailureTime: Option<real>, now: real, recoveryTimeout: real): bool
  {
    match lastFailureTime
    case None => true
    case Some(t) => now - t >= recoveryTimeout
  }

  /**
   * The recovery timeout runs from the last failure: a breaker with no failure time is
   * always due, one is never due before the timeout has elapsed, and once due it stays
   * due as the clock advances.
   */
  lemma ShouldAttemptResetFromLastFailure(lastFailureTime: Option<real>, now: real, later: real, recoveryTimeout: real)
    requires now <= later
    ensures lastFailureTime.None? ==> ShouldAttemptReset(lastFailureTime, now, recoveryTimeout)
    ensures lastFailureTime.Some? && now < lastFailureTime.value + recoveryTimeout
            ==> !ShouldAttemptReset(lastFailureTime, now, recoveryTimeout)
    ensures ShouldAttemptReset(lastFailureTime, now, recoveryTimeout) ==> ShouldAttemptReset(lastFailureTime, later, recoveryTimeout)
  {
  }

  /** `_on_success` on a snapshot. */
  function SuccessStep(b: Breaker): Breaker
  {
    Breaker(if b.state == HalfOpen then Closed else b.state, 0, b.lastFailureTime)
  }

  /** `_on_failure` on a snapshot. */
  function FailureStep(b: Breaker, threshold: int, now: real): Breaker
  {
    var count := b.failureCount + 1;
    Breaker(if count >= threshold then Open else b.state, count, Some(now))
  }

  datatype CallResult<+T> = CallResult(breaker: Breaker, result: Outcome<T>, invoked: bool)

  /**
   * One `CircuitBreaker.call` on a snapshot: the new breaker, what the caller
   * sees, and whether the operation was invoked.
   */
  function CallStep<T>(b: Breaker, threshold: int, timeout: real, now: real, outcome: Outcome<T>): (r: CallResult<T>)
    // open and not yet due: reject without invoking, change nothing
    ensures b.state == Open && !ShouldAttemptReset(b.lastFailureTime, now, timeout)
            ==> r == CallResult(b, Err(CircuitOpenError), false)
    // in every other case the operation is invoked and its outcome passed through unchanged
    ensures r.invoked <==> b.state != Open || ShouldAttemptReset(b.lastFailureTime, now, timeout)
    ensures r.invoked ==> r.result == outcome
    // success: reset the count; from half-open (or an open breaker that was due) back to closed
    ensures r.invoked && outcome.Ok? ==> r.breaker == Breaker(Closed, 0, b.lastFailureTime)
    // failure: count one more, remember the time, open exactly when the threshold is reached
    ensures r.invoked && outcome.Err? ==>
              && r.breaker.failureCount == b.failureCount + 1
              && r.breaker.lastFailureTime == Some(now)
              && (r.breaker.state == Open <==> b.failureCount + 1 >= threshold)
              && (r.breaker.state != Open ==> r.breaker.state == (if b.state == Closed then Closed else HalfOpen))
  {
    if b.state == Open && !ShouldAttemptReset(b.lastFailureTime, now, timeout) then
      CallResult(b, Err(CircuitOpenError), false)
    else
      var running := if b.state == Open then b.(state := HalfOpen) else b;
      match outcome
      case Ok(_) => CallResult(SuccessStep(running), outcome, true)
      case Err(_) =>
        assert running.state == (if b.state == Closed then Closed else HalfOpen);
        CallResult(FailureStep(running, threshold, now), outcome, true)
  }

  /** Every call keeps the invariant and leaves the breaker closed or open, never half-open. */
  lemma CallKeepsInv<T>(b: Breaker, threshold: int, timeout: real, now: real, outcome: Outcome<T>)
    requires Inv(b, threshold)
    ensures Settled(CallStep(b, threshold, timeout, now, outcome).breaker, threshold)
  {
  }

  /** Consequence of the invariant: a failed trial call (half-open, or open and due) always reopens the breaker. */
  lemma TrialFailureReopens<T>(b: Breaker, threshold: int, timeout: real, now: real, e: Error)
    requires Inv(b, threshold) && b.state != Closed
    requires b.state == HalfOpen || ShouldAttemptReset(b.lastFailureTime, now, timeout)
    ensures var r := CallStep<T>(b, threshold, timeout, now, Err(e));
            r.invoked && r.breaker.state == Open && r.result == Err(e)
  {
  }

  // ---------------------------------------------------------------------------
  // Circuit breaker: the object
  // ---------------------------------------------------------------------------

  class CircuitBreaker {
    const failureThreshold: int
    const recoveryTimeout: real
    var failureCount: nat
    var lastFailureTime: Option<real>
    var state: CircuitState

    /** The breaker's mutable state as a value. */
    function Snapshot(): Breaker
      reads this
    {
      Breaker(state, failureCount, lastFailureTime)
    }

    ghost predicate Valid()
      reads this
    {
      Settled(Snapshot(), failureThreshold)
    }

    constructor (failureThreshold: int := 5, recoveryTimeout: real := 60.0)
      ensures this.failureThreshold == failureThreshold && this.recoveryTimeout == recoveryTimeout
      ensures state == Closed && failureCount == 0 && lastFailureTime == None
      ensures Valid()
    {
      this.failureThreshold := failureThreshold;
      this.recoveryTimeout := recoveryTimeout;
      failureCount := 0;
      lastFailureTime := None;
      state := Closed;
    }

    /** `call`: gate, invoke, and record the outcome; `invoked` is false exactly when the gate rejected. */
    method Call<T>(now: real, outcome: Outcome<T>) returns (result: Outcome<T>, invoked: bool)
      requires Valid()
      modifies this
      ensures Valid()
      ensures var c := CallStep(old(Snapshot()), failureThreshold, recoveryTimeout, now, outcome);
              Snapshot() == c.breaker && result == c.result && invoked == c.invoked
    {
      CallKeepsInv(Snapshot(), failureThreshold, recoveryTimeout, now, outcome);
      if state == Open {
        if ShouldAttemptReset(lastFailureTime, now, recoveryTimeout) {
          state := HalfOpen;
        } else {
          return Err(CircuitOpenError), false;
        }
      }
      invoked := true;
      result := outcome;
      match outcome
      case Ok(_) => OnSuccess();
      case Err(_) => OnFailure(now);
    }

    /** `_on_success`. */
    method OnSuccess()
      modifies this
      ensures Snapshot() == SuccessStep(old(Snapshot()))
    {
      failureCount := 0;
      if state == HalfOpen {
        state := Closed;
      }
    }

    /** `_on_failure`, with `now` the clock reading it takes. */
    method OnFailure(now: real)
      modifies this
      ensures Snapshot() == FailureStep(old(Snapshot()), failureThreshold, now)
    {
      failureCount := failureCount + 1;
      lastFailureTime := Some(now);
      if failureCount >= failureThreshold {
        state := Open;
      }
    }
  }

  // ---------------------------------------------------------------------------
  // Retry policy
  // ---------------------------------------------------------------------------

  /** `2 ** n` as a real. */
  function Pow2(n: nat): (r: real)
    ensures r >= 1.0
  {
    if n == 0 then 1.0 else 2.0 * Pow2(n - 1)
  }

  lemma {:induction false} Pow2Monotone(i: nat, j: nat)
    requires i <= j
    ensures Pow2(i) <= Pow2(j)
  {
    if i < j {
      Pow2Monotone(i, j - 1);
    }
  }

  /** One retry run: what the caller sees, the number of attempts made, and the sleeps between them. */
  datatype RetryRun<+T> = RetryRun(result: Outcome<T>, attempts: nat, delays: seq<real>)

  class RetryPolicy {
    const maxAttempts: int
    const baseDelay: real
    const maxDelay: real

    constructor (maxAttempts: int := 3, baseDelay: real := 0.1, maxDelay: real := 10.0)
      ensures this.maxAttempts == maxAttempts && this.baseDelay == baseDelay && this.maxDelay == maxDelay
    {
      this.maxAttempts := maxAttempts;
      this.baseDelay := baseDelay;
      this.maxDelay := maxDelay;
    }

    /** The delay before jitter, `min(base_delay * 2 ** (attempt - 1), max_delay)`. */
    function CappedDelay(attempt: int): (d: real)
      requires attempt >= 1
      ensures d <= maxDelay && d <= baseDelay * Pow2(attempt - 1)
      ensures d == maxDelay || d == baseDelay * Pow2(attempt - 1)
      ensures baseDelay >= 0.0 && maxDelay >= 0.0 ==> d >= 0.0
    {
      Min(baseDelay * Pow2(attempt - 1), maxDelay)
    }

    /** The capped delay never shrinks as the attempt number grows. */
    lemma CappedDelayMonotone(i: int, j: int)
      requires 1 <= i <= j
      requires baseDelay >= 0.0
      ensures CappedDelay(i) <= CappedDelay(j)
    {
      Pow2Monotone(i - 1, j - 1);
      var x, y := baseDelay * Pow2(i - 1), baseDelay * Pow2(j - 1);
      MulMonotone(baseDelay, Pow2(i - 1), Pow2(j - 1));
      assert x <= y;
      assert CappedDelay(i) == Min(x, maxDelay) && CappedDelay(j) == Min(y, maxDelay);
      assert Min(x, maxDelay) <= Min(y, maxDelay);
    }

    /**
     * `_calculate_backoff`, where `u` is the draw of `random.random()`: with
     * `u` in [0, 1) the delay is the capped delay scaled by a factor in [0.5, 1.5).
     */
    function CalculateBackoff(attempt: int, u: real): (d: real)
      requires attempt >= 1
      ensures 0.0 <= u < 1.0 && CappedDelay(attempt) >= 0.0 ==>
                0.5 * CappedDelay(attempt) <= d <= 1.5 * CappedDelay(attempt)
      ensures 0.0 <= u < 1.0 && CappedDelay(attempt) > 0.0 ==> d < 1.5 * CappedDelay(attempt)
    {
      var c := CappedDelay(attempt);
      JitterBounds(c, u);
      c * (0.5 + u)
    }

    /**
     * The retry loop from `attempt` on, assuming the earlier attempts failed:
     * it stops at the first success, makes at most `maxAttempts` attempts,
     * sleeps after every failed attempt but the last, and on exhaustion
     * yields the last attempt's error.
     */
    function RetryFrom<T>(op: nat -> Outcome<T>, draw: nat -> real, attempt: nat): RetryRun<T>
      requires 1 <= attempt <= maxAttempts
      decreases maxAttempts - attempt
    {
      if op(attempt).Ok? || attempt == maxAttempts then
        RetryRun(op(attempt), attempt, [])
      else
        var rest := RetryFrom(op, draw, attempt + 1);
        RetryRun(rest.result, rest.attempts, [CalculateBackoff(attempt, draw(attempt))] + rest.delays)
    }

    /**
     * A run from `attempt` stops at the first success or after the last allowed attempt,
     * returns the outcome of its final attempt, and sleeps the backoff of every attempt
     * before the final one.
     */
    lemma {:induction false} RetryFromShape<T>(op: nat -> Outcome<T>, draw: nat -> real, attempt: nat)
      requires 1 <= attempt <= maxAttempts
      decreases maxAttempts - attempt
      ensures var run := RetryFrom(op, draw, attempt);
              attempt <= run.attempts <= maxAttempts
              && run.result == op(run.attempts)
              && (forall a :: attempt <= a < run.attempts ==> op(a).Err?)
              && (run.result.Err? ==> run.attempts == maxAttempts)
              && |run.delays| == run.attempts - attempt
              && (forall i :: 0 <= i < |run.delays| ==> run.delays[i] == CalculateBackoff(attempt + i, draw(attempt + i)))
    {
      if !(op(attempt).Ok? || attempt == maxAttempts) {
        RetryFromShape(op, draw, attempt + 1);
      }
    }

    /**
     * `execute_with_retry`: returns the outcome, the number of invocations of
     * the operation and the durations slept, in order.
     */
    method ExecuteWithRetry<T>(op: nat -> Outcome<T>, draw: nat -> real)
      returns (result: Outcome<T>, invocations: nat, delays: seq<real>)
      requires maxAttempts >= 1
      ensures RetryRun(result, invocations, delays) == RetryFrom(op, draw, 1)
    {
      var lastError: Outcome<T> := Err(Raised(""));
      delays := [];
      invocations := 0;
      for attempt := 1 to maxAttempts + 1
        invariant invocations == attempt - 1
        invariant attempt <= maxAttempts ==>
          (var rest := RetryFrom(op, draw, attempt);
           RetryFrom(op, draw, 1) == RetryRun(rest.result, rest.attempts, delays + rest.delays))
        invariant attempt == maxAttempts + 1 ==> RetryFrom(op, draw, 1) == RetryRun(lastError, maxAttempts, delays)
      {
        invocations := invocations + 1;
        var outcome := op(attempt);
        if outcome.Ok? {
          return outcome, invocations, delays;
        }
        lastError := outcome;
        if attempt < maxAttempts {
          delays := delays + [CalculateBackoff(attempt, draw(attempt))];
        }
      }
      result := lastError;
    }
  }

  /** A jitter factor `0.5 + u` with `u` in [0, 1) scales a nonnegative delay into [0.5, 1.5) of itself. */
  lemma JitterBounds(c: real, u: real)
    ensures 0.0 <= u < 1.0 && c >= 0.0 ==> 0.5 * c <= c * (0.5 + u) <= 1.5 * c
    ensures 0.0 <= u < 1.0 && c > 0.0 ==> c * (0.5 + u) < 1.5 * c
  {
    if 0.0 <= u < 1.0 && c >= 0.0 {
      MulMonotone(c, 0.5, 0.5 + u);
      MulMonotone(c, 0.5 + u, 1.5);
      if c > 0.0 {
        assert c * (1.5 - (0.5 + u)) > 0.0;
      }
    }
  }

  lemma MulMonotone(c: real, x: real, y: real)
    requires c >= 0.0 && x <= y
    ensures c * x <= c * y
  {
  }

  // ---------------------------------------------------------------------------
  // Health check
  // ---------------------------------------------------------------------------

  datatype HealthStatus = Healthy | Unhealthy

  /** The status string the source stores. */
  function StatusValue(s: HealthStatus): string
  {
    match s
    case Healthy => "HEALTHY"
    case Unhealthy => "UNHEALTHY"
  }

  class HealthCheck {
    const checkInterval: int
    var lastCheck: Option<real>
    var status: HealthStatus
    var metrics: map<string, string>

    constructor (checkInterval: int := 30)
      ensures this.checkInterval == checkInterval
      ensures lastCheck == None && status == Healthy && metrics == map[]
    {
      this.checkInterval := checkInterval;
      lastCheck := None;
      status := Healthy;
      metrics := map[];
    }

    /**
     * `perform_health_check`. The only statement of its probe that can raise
     * is the clock read, so `now` is that reading, `None` when it raises.
     */
    method PerformHealthCheck(now: Option<real>) returns (healthy: bool)
      modifies this
      ensures healthy <==> now.Some?
      ensures status == if healthy then Healthy else Unhealthy
      ensures lastCheck == if healthy then now else old(lastCheck)
      ensures metrics == old(metrics)
    {
      status := Healthy;
      if now.None? {
        status := Unhealthy;
        return false;
      }
      lastCheck := now;
      return true;
    }

    /** `auto_heal`: clear the metrics, then check again and report that check's result. */
    method AutoHeal(now: Option<real>) returns (healed: bool)
      modifies this
      ensures metrics == map[]
      ensures healed <==> now.Some?
      ensures status == if healed then Healthy else Unhealthy
      ensures lastCheck == if healed then now else old(lastCheck)
    {
      metrics := map[];
      healed := PerformHealthCheck(now);
    }
  }

  // ---------------------------------------------------------------------------
  // The orchestrator
  // ---------------------------------------------------------------------------

  /** One entry of the failure history: when, and `str` of the terminal error. */
  datatype FailureRecord = FailureRecord(timestamp: real, error: string)

  datatype SystemStatus = SystemStatus(circuitBreakerState: string, healthStatus: string, recentFailures: nat)

  /** A resilient run: the retry run as the caller sees it, and the breaker it leaves behind. */
  datatype ResilientRun<+T> = ResilientRun(run: RetryRun<T>, breaker: Breaker)

  /**
   * The retry loop of `p` from `attempt` on, when every attempt is one breaker
   * call on the breaker `b` that the previous attempt left. Like the plain
   * retry loop it stops at the first success, sleeps after every failed
   * attempt but the last and fails only after the last attempt; a success is
   * always the operation's own value, and a failure is the operation's error
   * or the breaker's rejection. The breaker invariant is kept throughout.
   */
  function ResilientFrom<T>(p: RetryPolicy, threshold: int, timeout: real, op: nat -> Outcome<T>,
                            clock: nat -> real, draw: nat -> real, b: Breaker, attempt: nat): ResilientRun<T>
    requires 1 <= attempt <= p.maxAttempts
    decreases p.maxAttempts - attempt
  {
    var c := CallStep(b, threshold, timeout, clock(attempt), op(attempt));
    if c.result.Ok? || attempt == p.maxAttempts then
      ResilientRun(RetryRun(c.result, attempt, []), c.breaker)
    else
      var rest := ResilientFrom(p, threshold, timeout, op, clock, draw, c.breaker, attempt + 1);
      ResilientRun(RetryRun(rest.run.result, rest.run.attempts, [p.CalculateBackoff(attempt, draw(attempt))] + rest.run.delays),
                   rest.breaker)
  }

  /**
   * The breaker as attempt `a` finds it, in a resilient run that meets the breaker `b`
   * at attempt `attempt`: every earlier attempt made one breaker call.
   */
  function BreakerBefore<T>(threshold: int, timeout: real, op: nat -> Outcome<T>, clock: nat -> real,
                            b: Breaker, attempt: nat, a: nat): Breaker
    requires attempt <= a
    decreases a - attempt
  {
    if a == attempt then b
    else BreakerBefore(threshold, timeout, op, clock, CallStep(b, threshold, timeout, clock(attempt), op(attempt)).breaker,
                       attempt + 1, a)
  }

  /**
   * A resilient run stops at the first success or after the last allowed attempt: every
   * attempt before the final one was a failed breaker call, and the run's result and
   * breaker are those of the final call. A success is the operation's own result, a
   * terminal failure is the last attempt's error or the breaker's rejection; it sleeps
   * the backoff of every attempt before the final one, and the breaker invariant holds
   * at the end.
   */
  lemma {:induction false} ResilientFromShape<T>(p: RetryPolicy, threshold: int, timeout: real, op: nat -> Outcome<T>,
                                                 clock: nat -> real, draw: nat -> real, b: Breaker, attempt: nat)
    requires 1 <= attempt <= p.maxAttempts
    decreases p.maxAttempts - attempt
    ensures var r := ResilientFrom(p, threshold, timeout, op, clock, draw, b, attempt);
            attempt <= r.run.attempts <= p.maxAttempts
            && (r.run.result.Ok? ==> r.run.result == op(r.run.attempts))
            && (r.run.result.Err? ==>
                  r.run.attempts == p.maxAttempts
                  && (r.run.result == op(p.maxAttempts) || r.run.result == Err(CircuitOpenError)))
            && |r.run.delays| == r.run.attempts - attempt
            && (forall i :: 0 <= i < |r.run.delays| ==>
                  r.run.delays[i] == p.CalculateBackoff(attempt + i, draw(attempt + i)))
            && (Inv(b, threshold) ==> Settled(r.breaker, threshold))
            && (forall a :: attempt <= a < r.run.attempts ==>
                  CallStep(BreakerBefore(threshold, timeout, op, clock, b, attempt, a), threshold, timeout,
                           clock(a), op(a)).result.Err?)
            && var last := CallStep(BreakerBefore(threshold, timeout, op, clock, b, attempt, r.run.attempts),
                                    threshold, timeout, clock(r.run.attempts), op(r.run.attempts));
               r.run.result == last.result && r.breaker == last.breaker
  {
    var c := CallStep(b, threshold, timeout, clock(attempt), op(attempt));
    if !(c.result.Ok? || attempt == p.maxAttempts) {
      ResilientFromShape(p, threshold, timeout, op, clock, draw, c.breaker, attempt + 1);
      var r := ResilientFrom(p, threshold, timeout, op, clock, draw, b, attempt);
      forall a | attempt < a <= r.run.attempts
        ensures BreakerBefore(threshold, timeout, op, clock, b, attempt, a)
             == BreakerBefore(threshold, timeout, op, clock, c.breaker, attempt + 1, a)
      {
      }
    }
  }

  /**
   * While the breaker stays closed nothing distinguishes the resilient run
   * from the plain retry loop: if every attempt fails and the failures do not
   * reach the threshold, the run is the plain one, the breaker stays closed,
   * counts one failure per attempt and remembers the time of the last.
   */
  lemma {:induction false} FailuresBelowThresholdStayClosed<T>(p: RetryPolicy, threshold: int, timeout: real,
                                                               op: nat -> Outcome<T>, clock: nat -> real,
                                                               draw: nat -> real, b: Breaker, attempt: nat)
    requires 1 <= attempt <= p.maxAttempts
    requires b.state == Closed
    requires b.failureCount + (p.maxAttempts - attempt + 1) < threshold
    requires forall a :: attempt <= a <= p.maxAttempts ==> op(a).Err?
    decreases p.maxAttempts - attempt
    ensures var r := ResilientFrom(p, threshold, timeout, op, clock, draw, b, attempt);
            && r.run == p.RetryFrom(op, draw, attempt)
            && r.breaker == Breaker(Closed, b.failureCount + (p.maxAttempts - attempt + 1), Some(clock(p.maxAttempts)))
  {
    var c := CallStep(b, threshold, timeout, clock(attempt), op(attempt));
    if attempt < p.maxAttempts {
      FailuresBelowThresholdStayClosed(p, threshold, timeout, op, clock, draw, c.breaker, attempt + 1);
    }
  }

  /**
   * A closed breaker that cannot reach its threshold within the remaining
   * attempts never opens, so the run through it is the plain retry run,
   * whatever each attempt's outcome.
   */
  lemma {:induction false} ClosedBelowThresholdIsPlainRetry<T>(p: RetryPolicy, threshold: int, timeout: real,
                                                               op: nat -> Outcome<T>, clock: nat -> real,
                                                               draw: nat -> real, b: Breaker, attempt: nat)
    requires 1 <= attempt <= p.maxAttempts
    requires b.state == Closed
    requires b.failureCount + (p.maxAttempts - attempt + 1) < threshold
    decreases p.maxAttempts - attempt
    ensures ResilientFrom(p, threshold, timeout, op, clock, draw, b, attempt).run == p.RetryFrom(op, draw, attempt)
    ensures ResilientFrom(p, threshold, timeout, op, clock, draw, b, attempt).breaker.state == Closed
  {
    var c := CallStep(b, threshold, timeout, clock(attempt), op(attempt));
    if op(attempt).Err? && attempt < p.maxAttempts {
      ClosedBelowThresholdIsPlainRetry(p, threshold, timeout, op, clock, draw, c.breaker, attempt + 1);
    }
  }

  /**
   * An open breaker whose last failure was at `t` rejects every remaining
   * attempt whose clock reading is within the recovery timeout of `t`: each
   * such attempt fails fast without invoking the operation, still uses up
   * one attempt, and leaves the breaker exactly as it was.
   */
  lemma {:induction false} OpenBreakerFailsFast<T>(p: RetryPolicy, threshold: int, timeout: real,
                                                   op: nat -> Outcome<T>, clock: nat -> real,
                                                   draw: nat -> real, b: Breaker, attempt: nat, t: real)
    requires 1 <= attempt <= p.maxAttempts
    requires b.state == Open && b.lastFailureTime == Some(t)
    requires forall a :: attempt <= a <= p.maxAttempts ==> clock(a) - t < timeout
    decreases p.maxAttempts - attempt
    ensures var r := ResilientFrom(p, threshold, timeout, op, clock, draw, b, attempt);
            && r.run.result == Err(CircuitOpenError)
            && r.run.attempts == p.maxAttempts
            && r.breaker == b
  {
    if attempt < p.maxAttempts {
      OpenBreakerFailsFast(p, threshold, timeout, op, clock, draw, b, attempt + 1, t);
    }
  }

  /**
   * A breaker with threshold 2 and a 1 s timeout: two failures at `t0` open it; a call
   * half a second later fails fast without invoking the operation; a call 1.1 s after
   * the failures is a trial call that, on success, closes the breaker again.
   */
  lemma OpenThenRecover<T>(e1: Error, e2: Error, v: T, t0: real)
    ensures var c1 := CallStep<T>(Breaker(Closed, 0, None), 2, 1.0, t0, Err(e1));
            var c2 := CallStep<T>(c1.breaker, 2, 1.0, t0, Err(e2));
            var c3 := CallStep(c2.breaker, 2, 1.0, t0 + 0.5, Ok(v));
            var c4 := CallStep(c3.breaker, 2, 1.0, t0 + 1.1, Ok(v));
            && c1.breaker == Breaker(Closed, 1, Some(t0))
            && c2.breaker == Breaker(Open, 2, Some(t0))
            && c3 == CallResult(c2.breaker, Err(CircuitOpenError), false)
            && c4.invoked && c4.result == Ok(v) && c4.breaker == Breaker(Closed, 0, Some(t0))
  {
  }

  /**
   * With threshold 5 and three attempts, an operation that always fails with the same
   * message exhausts the retries with that message while the breaker stays closed
   * with three counted failures.
   */
  lemma {:induction false} AlwaysFailingStaysClosed<T>(p: RetryPolicy, op: nat -> Outcome<T>, clock: nat -> real,
                                                       draw: nat -> real, message: string)
    requires p.maxAttempts == 3
    requires forall a :: op(a) == Err(Raised(message))
    ensures var r := ResilientFrom(p, 5, 60.0, op, clock, draw, Breaker(Closed, 0, None), 1);
            && r.run.result == Err(Raised(message)) && ErrorText(r.run.result.error) == message
            && r.run.attempts == 3 && |r.run.delays| == 2
            && r.breaker == Breaker(Closed, 3, Some(clock(3)))
  {
    FailuresBelowThresholdStayClosed(p, 5, 60.0, op, clock, draw, Breaker(Closed, 0, None), 1);
    p.RetryFromShape(op, draw, 1);
  }

  class ResilientSystem {
    const circuitBreaker: CircuitBreaker
    const retryPolicy: RetryPolicy
    const healthCheck: HealthCheck
    var failureHistory: seq<FailureRecord>

    ghost predicate Valid()
      reads this, circuitBreaker
    {
      circuitBreaker.Valid()
    }

    /** The source's fixed defaults: threshold 5, timeout 60 s; 3 attempts, 0.1 s base, 10 s cap; interval 30 s. */
    constructor ()
      ensures Valid() && fresh(circuitBreaker) && fresh(healthCheck) && fresh(retryPolicy)
      ensures circuitBreaker.failureThreshold == 5 && circuitBreaker.recoveryTimeout == 60.0
      ensures circuitBreaker.Snapshot() == Breaker(Closed, 0, None)
      ensures retryPolicy.maxAttempts == 3 && retryPolicy.baseDelay == 0.1 && retryPolicy.maxDelay == 10.0
      ensures healthCheck.checkInterval == 30 && healthCheck.status == Healthy
      ensures healthCheck.lastCheck == None && healthCheck.metrics == map[]
      ensures failureHistory == []
    {
      circuitBreaker := new CircuitBreaker();
      retryPolicy := new RetryPolicy();
      healthCheck := new HealthCheck();
      failureHistory := [];
    }

    /**
     * `execute_with_resilience`: drive the breaker-wrapped operation through
     * the retry loop; on terminal failure record it, check health (`checkAt`)
     * and, if unhealthy, auto-heal (`healAt`), then return the terminal error
     * as it is. Breaker state carries from one attempt to the next.
     */
    method ExecuteWithResilience<T>(op: nat -> Outcome<T>, clock: nat -> real, draw: nat -> real,
                                    failedAt: real, checkAt: Option<real>, healAt: Option<real>)
      returns (result: Outcome<T>, delays: seq<real>)
      requires Valid()
      requires retryPolicy.maxAttempts >= 1
      modifies this, circuitBreaker, healthCheck
      ensures Valid()
      ensures var r := ResilientFrom(retryPolicy, circuitBreaker.failureThreshold, circuitBreaker.recoveryTimeout,
                                     op, clock, draw, old(circuitBreaker.Snapshot()), 1);
              result == r.run.result && delays == r.run.delays && circuitBreaker.Snapshot() == r.breaker
      ensures failureHistory == old(failureHistory) +
                (if result.Err? then [FailureRecord(failedAt, ErrorText(result.error))] else [])
      ensures result.Ok? ==> healthCheck.status == old(healthCheck.status)
                             && healthCheck.lastCheck == old(healthCheck.lastCheck)
                             && healthCheck.metrics == old(healthCheck.metrics)
      ensures result.Err? && checkAt.Some? ==>
                healthCheck.status == Healthy && healthCheck.lastCheck == checkAt
                && healthCheck.metrics == old(healthCheck.metrics)
      ensures result.Err? && checkAt.None? ==>
                healthCheck.metrics == map[]
                && healthCheck.status == (if healAt.Some? then Healthy else Unhealthy)
                && healthCheck.lastCheck == (if healAt.Some? then healAt else old(healthCheck.lastCheck))
    {
      result, delays := RetryThroughBreaker(op, clock, draw);
      if result.Err? {
        RecordFailure(result.error, failedAt, checkAt, healAt);
      }
    }

    /**
     * `retry_policy.execute_with_retry(lambda: circuit_breaker.call(func))`:
     * the loop of `execute_with_retry` whose every attempt is one
     * `circuitBreaker.Call`, so it meets the breaker as earlier attempts left it.
     */
    method RetryThroughBreaker<T>(op: nat -> Outcome<T>, clock: nat -> real, draw: nat -> real)
      returns (result: Outcome<T>, delays: seq<real>)
      requires Valid()
      requires retryPolicy.maxAttempts >= 1
      modifies circuitBreaker
      ensures Valid()
      ensures var r := ResilientFrom(retryPolicy, circuitBreaker.failureThreshold, circuitBreaker.recoveryTimeout,
                                     op, clock, draw, old(circuitBreaker.Snapshot()), 1);
              result == r.run.result && delays == r.run.delays && circuitBreaker.Snapshot() == r.breaker
    {
      ghost var th, to := circuitBreaker.failureThreshold, circuitBreaker.recoveryTimeout;
      ghost var spec := ResilientFrom(retryPolicy, th, to, op, clock, draw, circuitBreaker.Snapshot(), 1);
      var maxAttempts := retryPolicy.maxAttempts;
      var lastError: Outcome<T> := Err(Raised(""));
      delays := [];
      for attempt := 1 to maxAttempts + 1
        invariant circuitBreaker.Valid()
        invariant attempt <= maxAttempts ==>
          (var rest := ResilientFrom(retryPolicy, th, to, op, clock, draw, circuitBreaker.Snapshot(), attempt);
           spec == ResilientRun(RetryRun(rest.run.result, rest.run.attempts, delays + rest.run.delays), rest.breaker))
        invariant attempt == maxAttempts + 1 ==>
          spec == ResilientRun(RetryRun(lastError, maxAttempts, delays), circuitBreaker.Snapshot())
        invariant lastError.Err?
      {
        var outcome, _ := circuitBreaker.Call(clock(attempt), op(attempt));
        if outcome.Ok? {
          assert delays + [] == delays;
          return outcome, delays;
        }
        lastError := outcome;
        if attempt < maxAttempts {
          ghost var rest := ResilientFrom(retryPolicy, th, to, op, clock, draw, circuitBreaker.Snapshot(), attempt + 1);
          assert delays + [retryPolicy.CalculateBackoff(attempt, draw(attempt))] + rest.run.delays
              == delays + ([retryPolicy.CalculateBackoff(attempt, draw(attempt))] + rest.run.delays);
          delays := delays + [retryPolicy.CalculateBackoff(attempt, draw(attempt))];
        }
      }
      result := lastError;
    }

    /** The `except` block of `execute_with_resilience`: append the record, then check health and heal if needed. */
    method RecordFailure(error: Error, failedAt: real, checkAt: Option<real>, healAt: Option<real>)
      modifies this, healthCheck
      ensures failureHistory == old(failureHistory) + [FailureRecord(failedAt, ErrorText(error))]
      ensures checkAt.Some? ==>
                healthCheck.status == Healthy && healthCheck.lastCheck == checkAt
                && healthCheck.metrics == old(healthCheck.metrics)
      ensures checkAt.None? ==>
                healthCheck.metrics == map[]
                && healthCheck.status == (if healAt.Some? then Healthy else Unhealthy)
                && healthCheck.lastCheck == (if healAt.Some? then healAt else old(healthCheck.lastCheck))
    {
      failureHistory := failureHistory + [FailureRecord(failedAt, ErrorText(error))];
      var healthy := healthCheck.PerformHealthCheck(checkAt);
      if !healthy {
        var _ := healthCheck.AutoHeal(healAt);
      }
    }

    /** `get_system_status`: a read-only snapshot for monitoring. */
    function GetSystemStatus(): (s: SystemStatus)
      reads this, circuitBreaker, healthCheck
      ensures s.recentFailures == |failureHistory|
      ensures s.circuitBreakerState == StateValue(circuitBreaker.state)
      ensures s.healthStatus == StatusValue(healthCheck.status)
    {
      SystemStatus(StateValue(circuitBreaker.state), StatusValue(healthCheck.status), |failureHistory|)
    }
  }
}
