/** Retries with backoff (workflow/retries.go); durations are real numbers. */
module Retrying {
  import opened Basics
  import opened History

  datatype RetryOptions = RetryOptions(
    maxAttempts: int,
    firstRetryInterval: real,
    maxRetryInterval: real,
    backoffCoefficient: real,
    retryTimeout: real)

  datatype Outcome = Success(result: Payload) | Failure(error: Error, canRetry: bool)

  /** What happens outside: each attempt's outcome, the time it is known, and whether the backoff timer after it failed. */
  datatype Surroundings = Surroundings(outcome: nat -> Outcome, now: nat -> real, timer: nat -> Option<Error>)

  /** A wait between two attempts, and when it started. */
  datatype Backoff = Backoff(start: real, duration: real)

  function Pow(base: real, n: nat): real {
    if n == 0 then 1.0 else base * Pow(base, n - 1)
  }

  /** The base to the first power is the base, and exponents add: this is exponentiation. */
  lemma {:induction false} PowAdds(base: real, m: nat, n: nat)
    ensures Pow(base, 1) == base && Pow(base, m + n) == Pow(base, m) * Pow(base, n)
    decreases m
  {
    if m > 0 {
      PowAdds(base, m - 1, n);
      assert Pow(base, m + n) == base * Pow(base, m - 1 + n);
    }
  }

  /** The delay `d`, but no more than the maximum interval if there is one. */
  predicate Capped(options: RetryOptions, d: real, wait: real) {
    wait <= d && (options.maxRetryInterval > 0.0 ==> wait <= options.maxRetryInterval) &&
    (wait == d || (options.maxRetryInterval > 0.0 && wait == options.maxRetryInterval))
  }

  /** The wait after attempt `k`: the first interval, multiplied by the coefficient once per attempt made, and capped. */
  predicate WaitsAfter(options: RetryOptions, k: nat, wait: real) {
    Capped(options, options.firstRetryInterval * Pow(options.backoffCoefficient, k + 1), wait)
  }

  /** A wait that starts at `now` would be over only after retries expire. */
  predicate Expires(options: RetryOptions, first: real, now: real, wait: real) {
    options.retryTimeout != 0.0 && now + wait > first + options.retryTimeout
  }

  /** A future that counts how often it is set. */
  class Future {
    var value: Option<Outcome>
    var sets: nat

    constructor ()
      ensures value.None? && sets == 0
    {
      value, sets := None, 0;
    }

    method Set(outcome: Outcome)
      modifies this
      ensures value == Some(outcome) && sets == old(sets) + 1
    {
      value, sets := Some(outcome), sets + 1;
    }
  }

  /**
    Runs attempts 0, 1, 2, ... and sets the result once. Another attempt follows exactly if the one before failed with an
    error that can be retried, the maximum is not reached, and a wait that ends in time was not canceled. Without
    retries the future of the first attempt is returned as it is.
   */
  method WithRetries(canceled: Option<Error>, options: RetryOptions, first: real, s: Surroundings)
    returns (r: Future, attempts: seq<nat>, backoffs: seq<Backoff>)
    ensures fresh(r) && r.sets == 1
    ensures canceled.Some? ==> attempts == [] && backoffs == [] && r.value == Some(Failure(canceled.value, false))
    ensures canceled.None? ==> attempts != [] && forall k :: 0 <= k < |attempts| ==> attempts[k] == k
    ensures forall k :: 0 <= k < |attempts| - 1 ==>
              && s.outcome(k).Failure? && s.outcome(k).error != ContextCanceled && s.outcome(k).canRetry
              && k + 1 < options.maxAttempts && s.timer(k).None?
    ensures forall k :: 0 <= k < |backoffs| ==>
              && backoffs[k].start == s.now(k) && WaitsAfter(options, k, backoffs[k].duration)
              && !Expires(options, first, backoffs[k].start, backoffs[k].duration)
    ensures canceled.None? ==>
              var n := |attempts| - 1;
              if |backoffs| == n then
                && r.value == Some(s.outcome(n))
                && (s.outcome(n).Success? || n + 1 >= options.maxAttempts || s.outcome(n).error == ContextCanceled ||
                    !s.outcome(n).canRetry ||
                    exists wait :: WaitsAfter(options, n, wait) && Expires(options, first, s.now(n), wait))
              else
                && |backoffs| == n + 1 && s.timer(n).Some? && r.value == Some(Failure(s.timer(n).value, false))
                && s.outcome(n).Failure? && s.outcome(n).error != ContextCanceled && s.outcome(n).canRetry
                && n + 1 < options.maxAttempts
  {
    r := new Future();
    backoffs := [];
    if canceled.Some? {
      attempts := [];
      r.Set(Failure(canceled.value, false));
      return;
    }
    var attempt: nat := 0;
    attempts := [attempt];
    if options.maxAttempts <= 1 {
      r.Set(s.outcome(attempt));
      return;
    }
    var result := s.outcome(attempt);
    while true
      invariant attempt < options.maxAttempts && |attempts| == attempt + 1 && result == s.outcome(attempt)
      invariant forall k :: 0 <= k <= attempt ==> attempts[k] == k
      invariant forall k :: 0 <= k < attempt ==>
                  && s.outcome(k).Failure? && s.outcome(k).error != ContextCanceled && s.outcome(k).canRetry
                  && k + 1 < options.maxAttempts && s.timer(k).None?
      invariant |backoffs| == attempt
      invariant forall k :: 0 <= k < attempt ==>
                  && backoffs[k].start == s.now(k) && WaitsAfter(options, k, backoffs[k].duration)
                  && !Expires(options, first, backoffs[k].start, backoffs[k].duration)
      invariant r.sets == 0
      decreases options.maxAttempts - attempt
    {
      if result.Success? { break; }
      attempt := attempt + 1;
      if attempt >= options.maxAttempts { break; }
      if result.error == ContextCanceled { break; }
      if !result.canRetry { break; }
      var backoffDuration := options.firstRetryInterval * Pow(options.backoffCoefficient, attempt);
      if options.maxRetryInterval > 0.0 && options.maxRetryInterval < backoffDuration {
        backoffDuration := options.maxRetryInterval;
      }
      assert WaitsAfter(options, attempt - 1, backoffDuration);
      var now := s.now(attempt - 1);
      if options.retryTimeout != 0.0 && now + backoffDuration > first + options.retryTimeout { break; }
      backoffs := backoffs + [Backoff(now, backoffDuration)];
      var timer := s.timer(attempt - 1);
      if timer.Some? {
        r.Set(Failure(timer.value, false));
        return;
      }
      attempts := attempts + [attempt];
      result := s.outcome(attempt);
    }
    r.Set(result);
  }
}
