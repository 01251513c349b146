/** Bounded retries with a growing pause. The action is whatever its successive calls return: call
    `k` (from 0) returns `action(k)`. */
module RetryPolicy {
  import opened GoErrors
  import opened CacheStore
  import opened Decimal

  /** What one call of an action returns. */
  datatype Attempt<+T> = Attempt(value: T, err: Err)

  type Action<!T> = nat -> Attempt<T>
  type ShouldRetry = Error -> bool

  predicate Retryable<T>(a: Attempt<T>, shouldRetry: ShouldRetry) {
    a.err.Some? && shouldRetry(a.err.value)
  }

  /** How many of the first `attempts` calls fail in a retryable way before one does not. */
  function Failures<T>(action: Action<T>, shouldRetry: ShouldRetry, attempts: nat): (m: nat)
    ensures m <= attempts
    ensures forall k :: 0 <= k < m ==> Retryable(action(k), shouldRetry)
    ensures m < attempts ==> !Retryable(action(m), shouldRetry)
  {
    if attempts == 0 then 0
    else
      var m := Failures(action, shouldRetry, attempts - 1);
      if m < attempts - 1 || !Retryable(action(m), shouldRetry) then m else m + 1
  }

  /** The contract's first two facts pin the count down. */
  lemma FailuresUnique<T>(action: Action<T>, shouldRetry: ShouldRetry, attempts: nat, m: nat)
    requires m <= attempts
    requires forall k :: 0 <= k < m ==> Retryable(action(k), shouldRetry)
    requires m < attempts ==> !Retryable(action(m), shouldRetry)
    ensures Failures(action, shouldRetry, attempts) == m
  {
  }

  function AfterTries(retryCount: int): string {
    "failed after " + Itoa(retryCount) + " tries"
  }

  function Tries(retryAttempts: int): nat {
    if retryAttempts < 0 then 0 else retryAttempts
  }

  /** The calls made: the retryable failures and, unless they use up the attempts, one more. */
  function Calls<T>(action: Action<T>, shouldRetry: ShouldRetry, retryAttempts: int): nat {
    var n := Tries(retryAttempts);
    var m := Failures(action, shouldRetry, n);
    if m < n then m + 1 else n
  }

  /** What a retried action returns, in terms of its last call. */
  function Retried<T>(action: Action<T>, shouldRetry: ShouldRetry, retryAttempts: int, zero: T): Attempt<T> {
    var n := Tries(retryAttempts);
    var m := Failures(action, shouldRetry, n);
    if n == 0 then Attempt(zero, None)
    else if m == n then Attempt(zero, Wrap(action(n - 1).err, AfterTries(n + 1)))
    else if action(m).err.Some? then Attempt(zero, action(m).err)
    else action(m)
  }

  /** The pauses: `d` times 2, 3, ..., one after every retryable failure. */
  function Pauses(d: int, m: nat): int {
    if m == 0 then 0 else Pauses(d, m - 1) + (m + 1) * d
  }

  lemma {:induction false} PausesClosedForm(d: int, m: nat)
    ensures 2 * Pauses(d, m) == d * (m * (m + 3))
  {
    if m > 0 {
      PausesClosedForm(d, m - 1);
      assert (m - 1) * (m + 2) + 2 * (m + 1) == m * (m + 3);
      assert d * ((m - 1) * (m + 2)) + d * (2 * (m + 1)) == d * (m * (m + 3));
    }
  }

  datatype RetryPolicyConfiguration = RetryPolicyConfiguration(retryAttempts: int, retryDurationInMS: int) {
    function GetBackOffDuration(): int {
      Duration(retryDurationInMS, MILLISECOND)
    }
  }

  /** In nanoseconds, as long as one pause fits in 64 bits: the first is twice the configured number of
      milliseconds. */
  lemma PausesInMilliseconds(config: RetryPolicyConfiguration, m: nat)
    requires 0 <= config.retryDurationInMS && config.retryDurationInMS * 1_000_000 <= INT64_MAX
    ensures 2 * Pauses(config.GetBackOffDuration(), m) == (config.retryDurationInMS * 1_000_000) * (m * (m + 3))
  {
    PausesClosedForm(config.GetBackOffDuration(), m);
  }

  /** `RetryActionString` for any result type; `slept` is the sum of its pauses. A nil action or
      predicate is `None`. */
  method RetryActionString<T>(config: RetryPolicyConfiguration, action: Option<Action<T>>,
      shouldRetry: Option<ShouldRetry>, zero: T)
    returns (value: T, err: Err, calls: nat, slept: int)
    ensures action.None? || shouldRetry.None? ==> value == zero && err.Some? && Cause(err.value) == NilArgument && calls == 0
    ensures action.Some? && shouldRetry.Some? ==>
      && Attempt(value, err) == Retried(action.value, shouldRetry.value, config.retryAttempts, zero)
      && calls == Calls(action.value, shouldRetry.value, config.retryAttempts)
      && slept == Pauses(config.GetBackOffDuration(), Failures(action.value, shouldRetry.value, Tries(config.retryAttempts)))
  {
    calls, slept := 0, 0;
    if action.None? || shouldRetry.None? {
      return zero, Some(Wrapped("nil action or handle", NilArgument)), calls, slept;
    }
    var d, retryCount := config.GetBackOffDuration(), 1;
    value, err := zero, None;
    while retryCount <= config.retryAttempts
      invariant calls == retryCount - 1 && calls <= Tries(config.retryAttempts)
      invariant forall k :: 0 <= k < calls ==> Retryable(action.value(k), shouldRetry.value)
      invariant err == if calls == 0 then None else action.value(calls - 1).err
      invariant slept == Pauses(d, calls)
    {
      var result := action.value(calls);
      value, err, calls := result.value, result.err, calls + 1;
      if err.Some? && !shouldRetry.value(err.value) {
        FailuresUnique(action.value, shouldRetry.value, Tries(config.retryAttempts), calls - 1);
        return zero, err, calls, slept;
      } else if err.None? {
        FailuresUnique(action.value, shouldRetry.value, Tries(config.retryAttempts), calls - 1);
        return value, None, calls, slept;
      }
      retryCount := retryCount + 1;
      slept := slept + retryCount * d;
    }
    FailuresUnique(action.value, shouldRetry.value, Tries(config.retryAttempts), calls);
    return zero, Wrap(err, AfterTries(retryCount)), calls, slept;
  }

  /** With at least one attempt, a retried action succeeds exactly when some call within the limit
      succeeds and every call before it fails in a retryable way; that call's value is the result.
      A failure has the cause of the last call made. */
  lemma RetriedMeans<T>(action: Action<T>, shouldRetry: ShouldRetry, retryAttempts: int, zero: T)
    requires retryAttempts >= 1
    ensures var r, calls := Retried(action, shouldRetry, retryAttempts, zero), Calls(action, shouldRetry, retryAttempts);
      && 1 <= calls <= retryAttempts
      && (r.err.None? <==> action(calls - 1).err.None?)
      && (r.err.None? ==> r.value == action(calls - 1).value)
      && (r.err.Some? ==> r.value == zero && Cause(r.err.value) == Cause(action(calls - 1).err.value))
      && (calls < retryAttempts ==> !Retryable(action(calls - 1), shouldRetry))
      && forall k :: 0 <= k < calls - 1 ==> Retryable(action(k), shouldRetry)
  {
  }

  /** Only the calls that are made matter. */
  lemma RetriedOnItsCalls<T>(a: Action<T>, b: Action<T>, shouldRetry: ShouldRetry, retryAttempts: int, zero: T)
    requires forall k: nat :: k < Calls(a, shouldRetry, retryAttempts) ==> a(k) == b(k)
    ensures Retried(a, shouldRetry, retryAttempts, zero) == Retried(b, shouldRetry, retryAttempts, zero)
  {
    var n := Tries(retryAttempts);
    var m := Failures(a, shouldRetry, n);
    forall k: nat | k < m ensures Retryable(b(k), shouldRetry) {
      assert Retryable(a(k), shouldRetry) && a(k) == b(k);
    }
    FailuresUnique(b, shouldRetry, n, m);
  }

  /** Without an attempt there is no call, no pause and, since wrapping nil gives nil, no error: the
      caller sees a success with the zero value. This happens exactly when the configured number of
      attempts is not positive. */
  lemma NoCallIff<T>(action: Action<T>, shouldRetry: ShouldRetry, retryAttempts: int, zero: T)
    ensures Calls(action, shouldRetry, retryAttempts) == 0 <==> retryAttempts <= 0
    ensures retryAttempts <= 0 ==> Retried(action, shouldRetry, retryAttempts, zero) == Attempt(zero, None)
  {
  }
}
