/** The retry policy wrapped around every language-model call: retry on a
    rate-limit error (HTTP status 429) with exponential back-off, rethrow
    everything else. Sleeping is not modelled; each pause is recorded as a
    number of milliseconds. */
module Retry {
  import opened Errors

  const RateLimitStatus := 429
  const DefaultMaxRetries := 3
  const BaseDelayMs := 1000
  const MaxDelayMs := 30000
  /** The error thrown when the loop runs out of attempts. */
  const MaxRetriesExceeded := Error(None, "Max retries exceeded")

  function Pow2(k: nat): (r: nat)
    ensures r >= 1
  {
    if k == 0 then 1 else 2 * Pow2(k - 1)
  }

  /** The pause before the retry that follows failed attempt `attempt`:
      `Math.min(1000 * Math.pow(2, attempt), 30000)`. */
  function Delay(attempt: nat): (ms: nat)
    ensures BaseDelayMs <= ms <= MaxDelayMs
  {
    if BaseDelayMs * Pow2(attempt) < MaxDelayMs then BaseDelayMs * Pow2(attempt) else MaxDelayMs
  }

  /** `error.status === 429`. */
  predicate IsRateLimit<T>(o: Outcome<T>) {
    o.Thrown? && HasStatus(o.error, RateLimitStatus)
  }

  /** What a run of `retryWithBackoff(fn, maxRetries)` does, where `fn(k)` is
      the outcome of the k-th call (counting from 1): with no attempt allowed
      it throws "Max retries exceeded" without calling; otherwise it makes
      `calls` calls, every call but the last was a rate-limit error, it stops
      before the limit only at an outcome that is not one, it returns or
      rethrows the last outcome unchanged, and it paused `Delay(k)` after
      each failed attempt k it retried. */
  ghost predicate IsRetryRun<T>(fn: nat -> Outcome<T>, maxRetries: int,
                                r: Outcome<T>, calls: nat, delays: seq<nat>)
  {
    if maxRetries < 1 then
      calls == 0 && delays == [] && r == Thrown(MaxRetriesExceeded)
    else
      && 1 <= calls <= maxRetries
      && (forall k :: 1 <= k < calls ==> IsRateLimit(fn(k)))
      && (calls < maxRetries ==> !IsRateLimit(fn(calls)))
      && r == fn(calls)
      && |delays| == calls - 1
      && (forall i :: 0 <= i < |delays| ==> delays[i] == Delay(i + 1))
  }

  method RetryWithBackoff<T>(fn: nat -> Outcome<T>, maxRetries: int)
    returns (r: Outcome<T>, calls: nat, delays: seq<nat>)
    ensures IsRetryRun(fn, maxRetries, r, calls, delays)
  {
    calls, delays := 0, [];
    var attempt := 1;
    while attempt <= maxRetries
      invariant 1 <= attempt
      invariant attempt == 1 || attempt <= maxRetries
      invariant calls == attempt - 1
      invariant forall k :: 1 <= k < attempt ==> IsRateLimit(fn(k))
      invariant |delays| == attempt - 1
      invariant forall i :: 0 <= i < |delays| ==> delays[i] == Delay(i + 1)
      decreases maxRetries - attempt
    {
      var outcome := fn(attempt);
      calls := attempt;
      if outcome.Ok? {
        return outcome, calls, delays;
      }
      if HasStatus(outcome.error, RateLimitStatus) && attempt < maxRetries {
        delays := delays + [Delay(attempt)];
        attempt := attempt + 1;
        continue;
      }
      return outcome, calls, delays;
    }
    r := Thrown(MaxRetriesExceeded);
  }

  /** The outcome of the run from attempt `attempt` on: a reference
      definition of the loop by recursion. */
  function RetryFrom<T>(fn: nat -> Outcome<T>, maxRetries: int, attempt: nat): Outcome<T>
    decreases maxRetries - attempt
  {
    if attempt > maxRetries then Thrown(MaxRetriesExceeded)
    else if IsRateLimit(fn(attempt)) && attempt < maxRetries then RetryFrom(fn, maxRetries, attempt + 1)
    else fn(attempt)
  }

  /** What `await retryWithBackoff(fn, maxRetries)` resolves to or throws. */
  function RetryResult<T>(fn: nat -> Outcome<T>, maxRetries: int): Outcome<T> {
    RetryFrom(fn, maxRetries, 1)
  }

  lemma {:induction false} RetryFromReaches<T>(fn: nat -> Outcome<T>, maxRetries: int, calls: nat, j: nat)
    requires 1 <= j <= calls <= maxRetries
    requires forall k :: 1 <= k < calls ==> IsRateLimit(fn(k))
    requires calls < maxRetries ==> !IsRateLimit(fn(calls))
    ensures RetryFrom(fn, maxRetries, j) == fn(calls)
    decreases calls - j
  {
    if j < calls {
      RetryFromReaches(fn, maxRetries, calls, j + 1);
    }
  }

  /** Every run of the loop ends with the outcome the recursive definition
      gives. */
  lemma RetryRunResult<T>(fn: nat -> Outcome<T>, maxRetries: int,
                          r: Outcome<T>, calls: nat, delays: seq<nat>)
    requires IsRetryRun(fn, maxRetries, r, calls, delays)
    ensures r == RetryResult(fn, maxRetries)
  {
    if maxRetries >= 1 {
      RetryFromReaches(fn, maxRetries, calls, 1);
    }
  }

  /** A run is determined by the call outcomes and the limit. */
  lemma RetryRunUnique<T>(fn: nat -> Outcome<T>, maxRetries: int,
                          r1: Outcome<T>, calls1: nat, delays1: seq<nat>,
                          r2: Outcome<T>, calls2: nat, delays2: seq<nat>)
    requires IsRetryRun(fn, maxRetries, r1, calls1, delays1)
    requires IsRetryRun(fn, maxRetries, r2, calls2, delays2)
    ensures r1 == r2 && calls1 == calls2 && delays1 == delays2
  {
    if maxRetries >= 1 {
      assert calls1 < calls2 ==> IsRateLimit(fn(calls1));
      assert calls2 < calls1 ==> IsRateLimit(fn(calls2));
    }
  }

  /** The run stops at the first outcome that is not a rate-limit error (a
      success or any other error) and returns or rethrows it unchanged; no
      later call is made. */
  lemma FirstNonRateLimitWins<T>(fn: nat -> Outcome<T>, maxRetries: int, j: nat,
                                 r: Outcome<T>, calls: nat, delays: seq<nat>)
    requires IsRetryRun(fn, maxRetries, r, calls, delays)
    requires 1 <= j <= maxRetries && !IsRateLimit(fn(j))
    requires forall k :: 1 <= k < j ==> IsRateLimit(fn(k))
    ensures calls == j && r == fn(j)
  {
    assert calls < j ==> IsRateLimit(fn(calls));
  }

  /** A rate-limit error on the last allowed attempt is rethrown as it is;
      so "Max retries exceeded" is thrown only when no attempt is allowed. */
  lemma LastRateLimitRethrown<T>(fn: nat -> Outcome<T>, maxRetries: int,
                                 r: Outcome<T>, calls: nat, delays: seq<nat>)
    requires IsRetryRun(fn, maxRetries, r, calls, delays)
    requires maxRetries >= 1
    requires forall k :: 1 <= k <= maxRetries ==> IsRateLimit(fn(k))
    ensures calls == maxRetries && r == fn(maxRetries) && IsRateLimit(r)
    ensures r != Thrown(MaxRetriesExceeded)
  {
    assert calls < maxRetries ==> IsRateLimit(fn(calls));
  }

  /** Without an attempt allowed, `fn` is never called. */
  lemma MaxRetriesExceededOnlyWithoutAttempts<T>(fn: nat -> Outcome<T>, maxRetries: int,
                                                 r: Outcome<T>, calls: nat, delays: seq<nat>)
    requires IsRetryRun(fn, maxRetries, r, calls, delays)
    ensures calls == 0 <==> maxRetries < 1
    ensures maxRetries >= 1 ==> r == fn(calls)
  {
  }

  lemma {:induction false} Pow2Monotone(j: nat, k: nat)
    requires j <= k
    ensures Pow2(j) <= Pow2(k)
  {
    if j < k {
      Pow2Monotone(j, k - 1);
    }
  }

  /** Later retries never wait less. */
  lemma DelayMonotone(j: nat, k: nat)
    requires j <= k
    ensures Delay(j) <= Delay(k)
  {
    Pow2Monotone(j, k);
  }

  /** Each pause doubles the previous one until it reaches the 30 s cap. */
  lemma DelayDoublesUntilCap(k: nat)
    ensures Delay(k + 1) == if 2 * Delay(k) < MaxDelayMs then 2 * Delay(k) else MaxDelayMs
  {
    assert Pow2(k + 1) == 2 * Pow2(k);
  }

  /** The pauses of any run never decrease and never exceed 30 s. */
  lemma RunDelaysNonDecreasing<T>(fn: nat -> Outcome<T>, maxRetries: int,
                                  r: Outcome<T>, calls: nat, delays: seq<nat>)
    requires IsRetryRun(fn, maxRetries, r, calls, delays)
    ensures forall i, j :: 0 <= i <= j < |delays| ==> delays[i] <= delays[j] <= MaxDelayMs
  {
    forall i, j | 0 <= i <= j < |delays| ensures delays[i] <= delays[j] <= MaxDelayMs {
      DelayMonotone(i + 1, j + 1);
    }
  }

  /** With the default limit of 3 and three rate-limit errors in a row, all
      three calls are made, the pauses are 2 s then 4 s, and the third 429 is
      what the caller sees. */
  lemma DefaultThreeRateLimits<T>(fn: nat -> Outcome<T>,
                                  r: Outcome<T>, calls: nat, delays: seq<nat>)
    requires IsRetryRun(fn, DefaultMaxRetries, r, calls, delays)
    requires IsRateLimit(fn(1)) && IsRateLimit(fn(2)) && IsRateLimit(fn(3))
    ensures calls == 3 && delays == [2000, 4000] && r == fn(3)
  {
    LastRateLimitRethrown(fn, DefaultMaxRetries, r, calls, delays);
    assert Pow2(2) == 4;
  }

  /** With the default limit, two rate-limit errors followed by a success
      return that success after pauses of 2 s and 4 s. */
  lemma DefaultTwoRateLimitsThenSuccess<T>(fn: nat -> Outcome<T>,
                                           r: Outcome<T>, calls: nat, delays: seq<nat>)
    requires IsRetryRun(fn, DefaultMaxRetries, r, calls, delays)
    requires IsRateLimit(fn(1)) && IsRateLimit(fn(2)) && fn(3).Ok?
    ensures calls == 3 && delays == [2000, 4000] && r == fn(3) && r.Ok?
  {
    FirstNonRateLimitWins(fn, DefaultMaxRetries, 3, r, calls, delays);
    assert Pow2(2) == 4;
  }
}
