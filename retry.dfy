/** `retryWithBackoff` of routes/openai.js: call a unit of work until it stops failing
    with a rate-limit error, sleeping an exponentially growing delay after each such
    failure, for at most `maxRetries` calls.

    The unit of work is modelled by the outcome of each of its invocations: `fn(i)` is
    what the i-th call (0-based) yields. Instead of sleeping, the model records the
    delays it would have slept, in order. */
module Retry {
  import opened JsValues

  /** The `response` object attached to a thrown provider error. */
  datatype ErrorResponse = ErrorResponse(status: Value)

  /** An error thrown by one invocation of the unit of work. */
  datatype ProviderError = ProviderError(response: Option<ErrorResponse>, message: string)

  /** What one invocation of the unit of work does: resolve with a value or throw. */
  datatype Attempt<T> = Succeeded(value: T) | Failed(error: ProviderError)

  /** How a call to `retryWithBackoff` ends: it returns the unit of work's value,
      rethrows its error, or throws `Error('Max retries reached')`. */
  datatype Outcome<T> = Returned(value: T) | Rethrown(error: ProviderError) | MaxRetriesReached

  /** Everything a call observably does: how it ends, how many times it invoked the
      unit of work, and the delays it slept, in order. */
  datatype Run<T> = Run(outcome: Outcome<T>, calls: nat, sleeps: seq<int>)

  const MaxRetriesMessage := "Max retries reached"

  /** `error.response && error.response.status === 429`: a strict comparison with the
      number 429, so a missing response or a status of `'429'` is not a rate limit. */
  predicate IsRateLimited(e: ProviderError) {
    e.response.Some? && e.response.value.status == Num(429)
  }

  /** An invocation after which the loop sleeps and tries again. */
  predicate Retryable<T>(a: Attempt<T>) {
    a.Failed? && IsRateLimited(a.error)
  }

  function Pow2(n: nat): nat {
    if n == 0 then 1 else 2 * Pow2(n - 1)
  }

  /** The number of loop iterations `while (retryCount < maxRetries)` allows. */
  function Budget(maxRetries: int): nat {
    if maxRetries < 0 then 0 else maxRetries
  }

  /** The first `n` delays of the geometric schedule starting at `initialDelay`. */
  function Schedule(initialDelay: int, n: nat): seq<int> {
    seq(n, i requires 0 <= i < n => initialDelay * Pow2(i))
  }

  function Total(s: seq<int>): int {
    if s == [] then 0 else Total(s[..|s| - 1]) + s[|s| - 1]
  }

  /** The index of the first invocation in [from, bound) that is not rate-limited,
      or `bound` when all of them are. */
  function FirstSettled<T>(fn: nat -> Attempt<T>, from: nat, bound: nat): (k: nat)
    requires from <= bound
    decreases bound - from
    ensures from <= k <= bound
    ensures forall i :: from <= i < k ==> Retryable(fn(i))
    ensures k < bound ==> !Retryable(fn(k))
  {
    if from == bound || !Retryable(fn(from)) then from else FirstSettled(fn, from + 1, bound)
  }

  /** How an invocation that is not rate-limited ends the call. */
  function Settle<T>(a: Attempt<T>): Outcome<T> {
    match a
    case Succeeded(v) => Returned(v)
    case Failed(e) => Rethrown(e)
  }

  /** The reference behaviour of `retryWithBackoff(fn, maxRetries, initialDelay)`:
      the first invocation among the first `Budget(maxRetries)` that is not rate-limited
      decides the outcome, after one sleep per rate-limited invocation before it; if there
      is none, every allowed invocation was made and slept after. */
  function Expected<T>(fn: nat -> Attempt<T>, maxRetries: int, initialDelay: int): Run<T> {
    var m := Budget(maxRetries);
    var k := FirstSettled(fn, 0, m);
    if k == m then Run(MaxRetriesReached, m, Schedule(initialDelay, m))
    else Run(Settle(fn(k)), k + 1, Schedule(initialDelay, k))
  }

  /** The loop of `retryWithBackoff`, with `retryCount` and `delay` as in the source. */
  method RetryWithBackoff<T>(fn: nat -> Attempt<T>, maxRetries: int, initialDelay: int)
    returns (outcome: Outcome<T>, calls: nat, sleeps: seq<int>)
    ensures Run(outcome, calls, sleeps) == Expected(fn, maxRetries, initialDelay)
  {
    var retryCount: nat := 0;
    var delay := initialDelay;
    calls, sleeps := 0, [];
    while retryCount < maxRetries
      invariant retryCount <= Budget(maxRetries)
      invariant calls == retryCount
      invariant delay == initialDelay * Pow2(retryCount)
      invariant sleeps == Schedule(initialDelay, retryCount)
      invariant forall i :: 0 <= i < retryCount ==> Retryable(fn(i))
    {
      var attempt := fn(retryCount);
      calls := calls + 1;
      match attempt
      case Succeeded(v) =>
        outcome := Returned(v);
        FirstSettledAt(fn, Budget(maxRetries), retryCount);
        return;
      case Failed(e) =>
        if IsRateLimited(e) {
          sleeps := sleeps + [delay];
          retryCount := retryCount + 1;
          DoubleDelay(initialDelay, retryCount - 1);
          delay := delay * 2;
        } else {
          outcome := Rethrown(e);
          FirstSettledAt(fn, Budget(maxRetries), retryCount);
          return;
        }
    }
    FirstSettledAt(fn, Budget(maxRetries), retryCount);
    outcome := MaxRetriesReached;
  }

  lemma DoubleDelay(initialDelay: int, n: nat)
    ensures initialDelay * Pow2(n) * 2 == initialDelay * Pow2(n + 1)
    ensures Schedule(initialDelay, n) + [initialDelay * Pow2(n)] == Schedule(initialDelay, n + 1)
  {
    assert Pow2(n + 1) == 2 * Pow2(n);
  }

  /** `FirstSettled` is the one index before which all invocations are rate-limited
      and at which (inside the bound) one is not. */
  lemma FirstSettledAt<T>(fn: nat -> Attempt<T>, bound: nat, k: nat)
    requires k <= bound
    requires forall i :: 0 <= i < k ==> Retryable(fn(i))
    requires k < bound ==> !Retryable(fn(k))
    ensures FirstSettled(fn, 0, bound) == k
  {
  }

  // ---------------------------------------------------------------------------
  // Properties of the reference behaviour

  /** Every sleep lasts `initialDelay * 2^i` for the i-th retry, so each delay is twice
      the one before; the call invokes the unit of work at most `maxRetries` times, and
      it sleeps once per invocation except after the one that ends the call. */
  lemma ShapeOfRun<T>(fn: nat -> Attempt<T>, maxRetries: int, initialDelay: int)
    ensures var r := Expected(fn, maxRetries, initialDelay);
      && r.calls <= Budget(maxRetries)
      && r.calls == |r.sleeps| + (if r.outcome.MaxRetriesReached? then 0 else 1)
      && (forall i :: 0 <= i < |r.sleeps| ==> r.sleeps[i] == initialDelay * Pow2(i))
      && (forall i :: 0 <= i < |r.sleeps| - 1 ==> r.sleeps[i + 1] == 2 * r.sleeps[i])
  {
    var r := Expected(fn, maxRetries, initialDelay);
    forall i | 0 <= i < |r.sleeps| - 1
      ensures r.sleeps[i + 1] == 2 * r.sleeps[i]
    {
      DoubleDelay(initialDelay, i);
    }
  }

  /** The unit of work was retried only after rate-limit failures, and the outcome is the
      last invocation's: its value, or its error rethrown unchanged when it is not a rate
      limit. */
  lemma OutcomeComesFromLastCall<T>(fn: nat -> Attempt<T>, maxRetries: int, initialDelay: int)
    ensures var r := Expected(fn, maxRetries, initialDelay);
      && (forall i :: 0 <= i < |r.sleeps| ==> Retryable(fn(i)))
      && (r.outcome.Returned? ==> r.calls >= 1 && fn(r.calls - 1) == Succeeded(r.outcome.value))
      && (r.outcome.Rethrown? ==>
            r.calls >= 1 && fn(r.calls - 1) == Failed(r.outcome.error)
            && !IsRateLimited(r.outcome.error))
  {
  }

  /** A first call that succeeds is returned at once: one invocation, no sleep. */
  lemma FirstCallSucceeds<T>(fn: nat -> Attempt<T>, maxRetries: int, initialDelay: int, v: T)
    requires maxRetries >= 1
    requires fn(0) == Succeeded(v)
    ensures Expected(fn, maxRetries, initialDelay) == Run(Returned(v), 1, [])
  {
    FirstSettledAt(fn, Budget(maxRetries), 0);
  }

  /** An error that is not a rate limit (one without a `response` included) is rethrown
      unchanged the first time it occurs, with no invocation after it. */
  lemma OtherErrorRethrown<T>(fn: nat -> Attempt<T>, maxRetries: int, initialDelay: int,
                              k: nat, e: ProviderError)
    requires k < maxRetries
    requires forall i :: 0 <= i < k ==> Retryable(fn(i))
    requires fn(k) == Failed(e) && !IsRateLimited(e)
    ensures Expected(fn, maxRetries, initialDelay) == Run(Rethrown(e), k + 1, Schedule(initialDelay, k))
  {
    FirstSettledAt(fn, Budget(maxRetries), k);
  }

  /** An error without a response object is never treated as a rate limit. */
  lemma MissingResponseIsFatal<T>(fn: nat -> Attempt<T>, maxRetries: int, initialDelay: int,
                                  message: string)
    requires maxRetries >= 1
    requires fn(0) == Failed(ProviderError(None, message))
    ensures Expected(fn, maxRetries, initialDelay) == Run(Rethrown(ProviderError(None, message)), 1, [])
  {
    OtherErrorRethrown(fn, maxRetries, initialDelay, 0, ProviderError(None, message));
  }

  /** The call ends with 'Max retries reached' exactly when every allowed invocation is
      rate-limited; it then has made `maxRetries` invocations and slept after each of them,
      the last included. */
  lemma ExhaustedIffAllRateLimited<T>(fn: nat -> Attempt<T>, maxRetries: int, initialDelay: int)
    ensures Expected(fn, maxRetries, initialDelay).outcome.MaxRetriesReached?
        <==> forall i :: 0 <= i < Budget(maxRetries) ==> Retryable(fn(i))
    ensures Expected(fn, maxRetries, initialDelay).outcome.MaxRetriesReached? ==>
        Expected(fn, maxRetries, initialDelay)
          == Run(MaxRetriesReached, Budget(maxRetries), Schedule(initialDelay, Budget(maxRetries)))
  {
    var m := Budget(maxRetries);
    var k := FirstSettled(fn, 0, m);
    if k < m {
      assert !Retryable(fn(k));
      match fn(k)
      case Succeeded(_) =>
      case Failed(_) =>
    }
  }

  /** With `maxRetries <= 0` the unit of work is never invoked. */
  lemma NoBudgetNoCall<T>(fn: nat -> Attempt<T>, maxRetries: int, initialDelay: int)
    requires maxRetries <= 0
    ensures Expected(fn, maxRetries, initialDelay) == Run(MaxRetriesReached, 0, [])
  {
  }

  lemma {:induction false} TotalAppend(s: seq<int>, x: int)
    ensures Total(s + [x]) == Total(s) + x
  {
    assert (s + [x])[..|s|] == s;
  }

  /** The geometric schedule adds up to `initialDelay * (2^n - 1)`. */
  lemma {:induction false} TotalSchedule(initialDelay: int, n: nat)
    ensures Total(Schedule(initialDelay, n)) == initialDelay * (Pow2(n) - 1)
  {
    if n == 0 {
      assert Schedule(initialDelay, 0) == [];
    } else {
      var p: int := Pow2(n - 1);
      var x := initialDelay * p;
      TotalSchedule(initialDelay, n - 1);
      DoubleDelay(initialDelay, n - 1);
      TotalAppend(Schedule(initialDelay, n - 1), x);
      assert Total(Schedule(initialDelay, n)) == initialDelay * (p - 1) + x;
      Distribute(initialDelay, p);
    }
  }

  lemma Distribute(d: int, p: int)
    ensures d * (p - 1) + d * p == d * (2 * p - 1)
  {
    assert d * (p - 1) == d * p - d;
    assert d * (2 * p - 1) == 2 * (d * p) - d;
  }

  /** After `k` rate-limited invocations, a successful one (still inside the budget)
      returns its value after `k + 1` invocations and a total delay of
      `initialDelay * (2^k - 1)`. */
  lemma SucceedsAfterRetries<T>(fn: nat -> Attempt<T>, maxRetries: int, initialDelay: int,
                                k: nat, v: T)
    requires k < maxRetries
    requires forall i :: 0 <= i < k ==> Retryable(fn(i))
    requires fn(k) == Succeeded(v)
    ensures var r := Expected(fn, maxRetries, initialDelay);
      && r.outcome == Returned(v)
      && r.calls == k + 1
      && Total(r.sleeps) == initialDelay * (Pow2(k) - 1)
  {
    FirstSettledAt(fn, Budget(maxRetries), k);
    TotalSchedule(initialDelay, k);
  }
}
