/** The retry loop of workers/src/utils/retry.ts. The retried operation is
    a function from attempt number to outcome; the `onRetry` callback and
    the sleeps are recorded in the run rather than performed. */
module Retry {
  import opened Wrappers
  import opened Strings

  /** An `Error`, by its message. */
  datatype Fault = Fault(message: string)

  datatype Outcome<T> = Success(value: T) | Thrown(error: Fault)

  /** `RetryOptions`; an absent field takes the default. */
  datatype RetryOptions = RetryOptions(
    maxAttempts: Option<int>,
    delay: Option<real>,
    backoff: Option<real>,
    shouldRetry: Option<Fault -> bool>)

  /** The options after `{ ...DEFAULT_RETRY_OPTIONS, ...options }`. */
  datatype Settings = Settings(maxAttempts: int, delay: real, backoff: real, shouldRetry: Fault -> bool)

  const DEFAULT_MAX_ATTEMPTS: int := 3
  const DEFAULT_DELAY: real := 1000.0
  const DEFAULT_BACKOFF: real := 2.0

  function Resolve(o: RetryOptions): (s: Settings)
    ensures s.maxAttempts == o.maxAttempts.GetOr(DEFAULT_MAX_ATTEMPTS)
    ensures s.delay == o.delay.GetOr(DEFAULT_DELAY) && s.backoff == o.backoff.GetOr(DEFAULT_BACKOFF)
    ensures o.shouldRetry.Some? ==> s.shouldRetry == o.shouldRetry.value
    ensures o.shouldRetry.None? ==> forall e :: s.shouldRetry(e)
  {
    Settings(o.maxAttempts.GetOr(DEFAULT_MAX_ATTEMPTS), o.delay.GetOr(DEFAULT_DELAY), o.backoff.GetOr(DEFAULT_BACKOFF),
             o.shouldRetry.GetOr((e: Fault) => true))
  }

  /** `Math.pow(b, n)` for a whole exponent. */
  function Pow(b: real, n: nat): real {
    if n == 0 then 1.0 else b * Pow(b, n - 1)
  }

  /** The pause before attempt `attempt + 1`: `delay * backoff^(attempt - 1)`. */
  function Backoff(s: Settings, attempt: nat): real
    requires attempt >= 1
  {
    s.delay * Pow(s.backoff, attempt - 1)
  }

  datatype RetryCall = RetryCall(attempt: nat, error: Fault)

  /** What one `withRetry` call does: its result (`Err(None)` is the
      `undefined` thrown when no attempt ran), how many times `fn` ran, the
      `onRetry` calls and the sleeps, in order. */
  datatype Run<T> = Run(result: Result<T, Option<Fault>>, calls: nat, retries: seq<RetryCall>, sleeps: seq<real>)

  /** The run from attempt `attempt` on, `last` being the error so far. */
  function RunFrom<T>(fn: nat -> Outcome<T>, s: Settings, attempt: nat, last: Option<Fault>): Run<T>
    requires attempt >= 1
    decreases if attempt <= s.maxAttempts then s.maxAttempts - attempt + 1 else 0
  {
    if attempt > s.maxAttempts then Run(Err(last), 0, [], [])
    else match fn(attempt)
      case Success(v) => Run(Ok(v), 1, [], [])
      case Thrown(e) =>
        if attempt == s.maxAttempts || !s.shouldRetry(e) then Run(Err(Some(e)), 1, [], [])
        else
          var rest := RunFrom(fn, s, attempt + 1, Some(e));
          Run(rest.result, rest.calls + 1, [RetryCall(attempt, e)] + rest.retries, [Backoff(s, attempt)] + rest.sleeps)
  }

  /** A run that already made some calls, followed by the rest of it. */
  function Then<T>(calls: nat, retries: seq<RetryCall>, sleeps: seq<real>, rest: Run<T>): Run<T> {
    Run(rest.result, calls + rest.calls, retries + rest.retries, sleeps + rest.sleeps)
  }

  /** `withRetry(fn, options)`. */
  method WithRetry<T>(fn: nat -> Outcome<T>, options: RetryOptions) returns (run: Run<T>)
    ensures run == RunFrom(fn, Resolve(options), 1, None)
  {
    var opts := Resolve(options);
    var lastError: Option<Fault> := None;
    var calls: nat := 0;
    var retries: seq<RetryCall> := [];
    var sleeps: seq<real> := [];
    var attempt: nat := 1;
    while attempt <= opts.maxAttempts
      invariant attempt >= 1 && calls == attempt - 1
      invariant RunFrom(fn, opts, 1, None) == Then(calls, retries, sleeps, RunFrom(fn, opts, attempt, lastError))
      decreases opts.maxAttempts - attempt + 1
    {
      calls := calls + 1;
      var outcome := fn(attempt);
      if outcome.Success? {
        return Run(Ok(outcome.value), calls, retries, sleeps);
      }
      lastError := Some(outcome.error);
      if attempt == opts.maxAttempts {
        break;
      }
      if !opts.shouldRetry(outcome.error) {
        return Run(Err(Some(outcome.error)), calls, retries, sleeps);
      }
      assert RunFrom(fn, opts, attempt, lastError)
          == Then(1, [RetryCall(attempt, outcome.error)], [Backoff(opts, attempt)], RunFrom(fn, opts, attempt + 1, lastError));
      retries := retries + [RetryCall(attempt, outcome.error)];
      sleeps := sleeps + [Backoff(opts, attempt)];
      attempt := attempt + 1;
    }
    return Run(Err(lastError), calls, retries, sleeps);
  }

  /** The counts of every run from `attempt` on: no call exactly when no
      attempt is left, at most `maxAttempts - attempt + 1` calls, one
      `onRetry` and one sleep between consecutive calls, and the result
      being the last call's success or error. */
  lemma {:induction false} RunShape<T>(fn: nat -> Outcome<T>, s: Settings, attempt: nat, last: Option<Fault>)
    requires attempt >= 1
    ensures var r := RunFrom(fn, s, attempt, last);
      && (attempt > s.maxAttempts <==> r.calls == 0)
      && (r.calls == 0 ==> r.result == Err(last) && r.retries == [] && r.sleeps == [])
      && (attempt <= s.maxAttempts ==> r.calls <= s.maxAttempts - attempt + 1)
      && (r.calls > 0 ==> |r.retries| == r.calls - 1 && |r.sleeps| == r.calls - 1)
      && (r.calls > 0 ==> match fn(attempt + r.calls - 1)
            case Success(v) => r.result == Ok(v)
            case Thrown(e) => r.result == Err(Some(e)))
    decreases if attempt <= s.maxAttempts then s.maxAttempts - attempt + 1 else 0
  {
    if attempt <= s.maxAttempts && fn(attempt).Thrown? && attempt != s.maxAttempts && s.shouldRetry(fn(attempt).error) {
      RunShape(fn, s, attempt + 1, Some(fn(attempt).error));
    }
  }

  /** The i-th `onRetry` of `r` reports attempt `attempt + i` with that
      attempt's error, which `shouldRetry` accepted, and the i-th sleep lasts
      `delay * backoff^(attempt + i - 1)`. */
  ghost predicate TracedAt<T>(fn: nat -> Outcome<T>, s: Settings, attempt: nat, r: Run<T>, i: nat)
    requires attempt >= 1 && i < |r.retries| && i < |r.sleeps|
  {
    && fn(attempt + i).Thrown? && r.retries[i] == RetryCall(attempt + i, fn(attempt + i).error)
    && s.shouldRetry(fn(attempt + i).error) && r.sleeps[i] == Backoff(s, attempt + i)
  }

  /** Every `onRetry` and sleep of `r` is traced from `attempt` on. */
  ghost predicate TraceFrom<T>(fn: nat -> Outcome<T>, s: Settings, attempt: nat, r: Run<T>)
    requires attempt >= 1
  {
    && |r.sleeps| == |r.retries|
    && forall i: nat :: i < |r.retries| ==> TracedAt(fn, s, attempt, r, i)
  }

  /** A retried failure followed by a traced rest is a traced run. */
  lemma TraceCons<T>(fn: nat -> Outcome<T>, s: Settings, attempt: nat, rest: Run<T>, r: Run<T>)
    requires attempt >= 1 && TraceFrom(fn, s, attempt + 1, rest)
    requires fn(attempt).Thrown? && s.shouldRetry(fn(attempt).error)
    requires r.retries == [RetryCall(attempt, fn(attempt).error)] + rest.retries
    requires r.sleeps == [Backoff(s, attempt)] + rest.sleeps
    ensures TraceFrom(fn, s, attempt, r)
  {
    forall i: nat | i < |r.retries|
      ensures TracedAt(fn, s, attempt, r, i)
    {
      if i > 0 {
        var j: nat := i - 1;
        assert TracedAt(fn, s, attempt + 1, rest, j);
        assert attempt + i == (attempt + 1) + j;
        assert r.retries[i] == rest.retries[j] && r.sleeps[i] == rest.sleeps[j];
      }
    }
  }

  /** Every run from `attempt` on has that trace. */
  lemma {:induction false} RunTrace<T>(fn: nat -> Outcome<T>, s: Settings, attempt: nat, last: Option<Fault>)
    requires attempt >= 1
    ensures TraceFrom(fn, s, attempt, RunFrom(fn, s, attempt, last))
    decreases if attempt <= s.maxAttempts then s.maxAttempts - attempt + 1 else 0
  {
    var r := RunFrom(fn, s, attempt, last);
    if attempt <= s.maxAttempts && fn(attempt).Thrown? && attempt != s.maxAttempts && s.shouldRetry(fn(attempt).error) {
      var rest := RunFrom(fn, s, attempt + 1, Some(fn(attempt).error));
      RunTrace(fn, s, attempt + 1, Some(fn(attempt).error));
      TraceCons(fn, s, attempt, rest, r);
    } else {
      assert r.retries == [] && r.sleeps == [];
    }
  }

  /** `fn` runs at most `maxAttempts` times and, when `maxAttempts < 1`,
      never: then the run throws `undefined`. */
  lemma AttemptBound<T>(fn: nat -> Outcome<T>, options: RetryOptions)
    ensures var s := Resolve(options); var r := RunFrom(fn, s, 1, None);
      && (s.maxAttempts >= 1 ==> 1 <= r.calls <= s.maxAttempts)
      && (s.maxAttempts < 1 ==> r.calls == 0 && r.result == Err(None))
  {
    RunShape(fn, Resolve(options), 1, None);
  }

  /** The first success is returned at once, provided every earlier error
      was retried. */
  lemma {:induction false} FirstSuccessReturned<T>(fn: nat -> Outcome<T>, s: Settings, attempt: nat, k: nat, last: Option<Fault>)
    requires 1 <= attempt <= k <= s.maxAttempts && fn(k).Success?
    requires forall j :: attempt <= j < k ==> fn(j).Thrown? && s.shouldRetry(fn(j).error)
    ensures RunFrom(fn, s, attempt, last).result == Ok(fn(k).value)
    ensures RunFrom(fn, s, attempt, last).calls == k - attempt + 1
    decreases k - attempt
  {
    if attempt < k {
      FirstSuccessReturned(fn, s, attempt + 1, k, Some(fn(attempt).error));
    }
  }

  /** An error `shouldRetry` rejects on a non-final attempt is thrown at
      once: no `onRetry`, no sleep, no further call. */
  lemma RejectedErrorThrownAtOnce<T>(fn: nat -> Outcome<T>, s: Settings, attempt: nat, last: Option<Fault>)
    requires 1 <= attempt < s.maxAttempts && fn(attempt).Thrown? && !s.shouldRetry(fn(attempt).error)
    ensures RunFrom(fn, s, attempt, last) == Run(Err(Some(fn(attempt).error)), 1, [], [])
  {
  }

  /** The final attempt's error is thrown whatever `shouldRetry` says. */
  lemma FinalErrorThrown<T>(fn: nat -> Outcome<T>, s: Settings, last: Option<Fault>)
    requires s.maxAttempts >= 1 && fn(s.maxAttempts).Thrown?
    ensures RunFrom(fn, s, s.maxAttempts, last) == Run(Err(Some(fn(s.maxAttempts).error)), 1, [], [])
  {
  }

  /** With the defaults an operation that always fails runs three times,
      sleeping 1000 and then 2000 milliseconds between the attempts. */
  lemma DefaultSchedule<T>(fn: nat -> Outcome<T>)
    requires forall j :: fn(j).Thrown?
    ensures RunFrom(fn, Resolve(RetryOptions(None, None, None, None)), 1, None).calls == 3
    ensures RunFrom(fn, Resolve(RetryOptions(None, None, None, None)), 1, None).sleeps == [1000.0, 2000.0]
    ensures RunFrom(fn, Resolve(RetryOptions(None, None, None, None)), 1, None).result == Err(Some(fn(3).error))
  {
    var s := Resolve(RetryOptions(None, None, None, None));
    assert s.shouldRetry(fn(1).error) && s.shouldRetry(fn(2).error);
    assert Pow(2.0, 1) == 2.0;
  }

  /** The markers of a transient failure. */
  const RETRYABLE_MESSAGES: seq<string> := ["ECONNRESET", "ETIMEDOUT", "ENOTFOUND", "ENETUNREACH", "rate limit", "timeout", "network"]

  /** Some marker, lowercased, occurs in `message`. */
  predicate SomeMarkerIn(message: string, markers: seq<string>)
    decreases |markers|
  {
    markers != [] && (Contains(message, Lower(markers[0])) || SomeMarkerIn(message, markers[1..]))
  }

  lemma {:induction false} SomeMarkerInMeans(message: string, markers: seq<string>)
    ensures SomeMarkerIn(message, markers) <==> exists i :: 0 <= i < |markers| && Contains(message, Lower(markers[i]))
    decreases |markers|
  {
    if markers != [] {
      SomeMarkerInMeans(message, markers[1..]);
      if exists i :: 0 <= i < |markers| && Contains(message, Lower(markers[i])) {
        var i :| 0 <= i < |markers| && Contains(message, Lower(markers[i]));
        if i > 0 {
          assert markers[1..][i - 1] == markers[i];
        }
      }
      if exists i :: 0 <= i < |markers[1..]| && Contains(message, Lower(markers[1..][i])) {
        var i :| 0 <= i < |markers[1..]| && Contains(message, Lower(markers[1..][i]));
        assert markers[i + 1] == markers[1..][i];
      }
    }
  }

  /** `isRetryableError`: the lowercased message contains a lowercased marker. */
  function IsRetryableError(e: Fault): (r: bool)
    ensures r <==> exists i :: 0 <= i < |RETRYABLE_MESSAGES| && Contains(Lower(e.message), Lower(RETRYABLE_MESSAGES[i]))
  {
    SomeMarkerInMeans(Lower(e.message), RETRYABLE_MESSAGES);
    SomeMarkerIn(Lower(e.message), RETRYABLE_MESSAGES)
  }

  /** The test ignores case. */
  lemma RetryableIgnoresCase(message: string)
    ensures IsRetryableError(Fault(Lower(message))) == IsRetryableError(Fault(message))
  {
    LowerIdempotent(message);
  }

  /** A connection reset is retryable in any case. */
  lemma ConnectionResetIsRetryable()
    ensures IsRetryableError(Fault("read ECONNRESET"))
  {
    var lowered := Lower("read ECONNRESET");
    assert lowered == "read econnreset";
    assert Lower(RETRYABLE_MESSAGES[0]) == "econnreset";
    ContainsAt(lowered, "econnreset", 5);
  }

  /** `withGitHubRetry`'s options: the caller's, with `shouldRetry` also
      demanding a retryable error. */
  function GitHubOptions(options: RetryOptions): (r: RetryOptions)
    ensures r.maxAttempts == options.maxAttempts && r.delay == options.delay && r.backoff == options.backoff
    ensures r.shouldRetry.Some?
    ensures forall e :: r.shouldRetry.value(e) <==>
              IsRetryableError(e) && (options.shouldRetry.None? || options.shouldRetry.value(e))
  {
    options.(shouldRetry := Some((e: Fault) => IsRetryableError(e) && (options.shouldRetry.None? || options.shouldRetry.value(e))))
  }

  /** `withGitHubRetry(fn, options)`. */
  method WithGitHubRetry<T>(fn: nat -> Outcome<T>, options: RetryOptions) returns (run: Run<T>)
    ensures run == RunFrom(fn, Resolve(GitHubOptions(options)), 1, None)
  {
    run := WithRetry(fn, GitHubOptions(options));
  }

  /** Under `withGitHubRetry` every retried error was retryable, and a
      non-retryable error on a non-final first attempt ends the run. */
  lemma GitHubRetriesOnlyRetryable<T>(fn: nat -> Outcome<T>, options: RetryOptions)
    ensures var r := RunFrom(fn, Resolve(GitHubOptions(options)), 1, None);
      forall i :: 0 <= i < |r.retries| ==> IsRetryableError(r.retries[i].error)
    ensures 1 < Resolve(GitHubOptions(options)).maxAttempts && fn(1).Thrown? && !IsRetryableError(fn(1).error) ==>
              RunFrom(fn, Resolve(GitHubOptions(options)), 1, None) == Run(Err(Some(fn(1).error)), 1, [], [])
  {
    if 1 < Resolve(GitHubOptions(options)).maxAttempts && fn(1).Thrown? && !IsRetryableError(fn(1).error) {
      RejectedErrorThrownAtOnce(fn, Resolve(GitHubOptions(options)), 1, None);
    }
    var r := RunFrom(fn, Resolve(GitHubOptions(options)), 1, None);
    RunTrace(fn, Resolve(GitHubOptions(options)), 1, None);
    forall i | 0 <= i < |r.retries|
      ensures IsRetryableError(r.retries[i].error)
    {
      assert TracedAt(fn, Resolve(GitHubOptions(options)), 1, r, i);
    }
  }
}
