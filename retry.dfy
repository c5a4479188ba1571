/** Bounded retrying, shared by the two upload components: attempts are
    numbered from 1, attempt `k` ends as `tryAt(k)`, and after the `k`-th
    failure the caller waits `1000 * k` milliseconds before the next
    attempt. Waiting is recorded, not performed. */
module Retry {
  import opened Common

  /** The least attempt in `1..n` that succeeds, or `n + 1` when none does. */
  function FirstSuccess<T>(tryAt: nat -> Result<T, string>, n: nat): (k: nat)
    ensures 1 <= k <= n + 1
    ensures forall i :: 1 <= i < k ==> tryAt(i).Failure?
    ensures k <= n ==> tryAt(k).Success?
  {
    if n == 0 then 1
    else
      var k := FirstSuccess(tryAt, n - 1);
      if k <= n - 1 then k
      else if tryAt(n).Success? then n
      else n + 1
  }

  /** Adding one more allowed attempt does not change an earlier success. */
  lemma FirstSuccessStable<T>(tryAt: nat -> Result<T, string>, n: nat, m: nat)
    requires n <= m
    requires FirstSuccess(tryAt, n) <= n
    ensures FirstSuccess(tryAt, m) == FirstSuccess(tryAt, n)
  {
  }

  /** The waits made after the first `n` failed attempts. */
  function Waits(n: nat): (w: seq<int>)
    ensures |w| == n
    ensures forall i :: 0 <= i < n ==> w[i] == 1000 * (i + 1)
  {
    if n == 0 then [] else Waits(n - 1) + [1000 * n]
  }

  /** How a retried operation ends: the value of the successful attempt, or
      the error of the last attempt (`None` is JavaScript's `undefined`,
      thrown when no attempt was allowed); how many attempts were made; and
      the waits between them. */
  datatype Run<T> = Run(outcome: Result<T, Option<string>>, attempts: nat, waits: seq<int>)

  /** Retrying up to `max` attempts. */
  function Retried<T>(tryAt: nat -> Result<T, string>, max: nat): (r: Run<T>)
    ensures r.attempts <= max
    ensures forall i :: 1 <= i < r.attempts ==> tryAt(i).Failure?
    ensures r.outcome.Success? <==> exists i :: 1 <= i <= max && tryAt(i).Success?
    ensures r.outcome.Success? ==> tryAt(r.attempts) == Success(r.outcome.value)
    ensures r.outcome.Failure? ==>
      r.attempts == max && r.outcome.error == (if max == 0 then None else Some(tryAt(max).error))
    ensures r.waits == Waits(if r.attempts == 0 then 0 else r.attempts - 1)
  {
    var k := FirstSuccess(tryAt, max);
    if k <= max then Run(Success(tryAt(k).value), k, Waits(k - 1))
    else Run(Failure(if max == 0 then None else Some(tryAt(max).error)), max, Waits(if max == 0 then 0 else max - 1))
  }

  /** Allowing more attempts changes nothing once an attempt within the
      smaller bound has succeeded. */
  lemma RetriedMonotone<T>(tryAt: nat -> Result<T, string>, n: nat, m: nat)
    requires n <= m
    requires Retried(tryAt, n).outcome.Success?
    ensures Retried(tryAt, m) == Retried(tryAt, n)
  {
    FirstSuccessStable(tryAt, n, m);
  }

  /** A `while (retryCount < maxRetries)` loop whose body tries once, leaves
      the loop on success and, on failure, counts the failure, rethrows it
      once the count reaches the bound and otherwise waits
      `1000 * retryCount`. */
  method RetryWhile<T>(tryAt: nat -> Result<T, string>, maxRetries: nat) returns (r: Run<T>)
    requires maxRetries >= 1
    ensures r == Retried(tryAt, maxRetries)
  {
    var retryCount := 0;
    var waits: seq<int> := [];
    while retryCount < maxRetries
      invariant 0 <= retryCount < maxRetries
      invariant FirstSuccess(tryAt, retryCount) == retryCount + 1
      invariant waits == Waits(retryCount)
    {
      var attempt := tryAt(retryCount + 1);
      if attempt.Success? {
        return Run(Success(attempt.value), retryCount + 1, waits);
      }
      retryCount := retryCount + 1;
      if retryCount == maxRetries {
        return Run(Failure(Some(attempt.error)), retryCount, waits);
      }
      waits := waits + [1000 * retryCount];
    }
    assert false;
  }

  /** A `for (attempt = 1; attempt <= maxRetries; attempt++)` loop that
      returns the first success, remembers each error as `lastError`, waits
      `1000 * attempt` only when another attempt follows, and throws
      `lastError` after the loop. */
  method RetryFor<T>(tryAt: nat -> Result<T, string>, maxRetries: nat) returns (r: Run<T>)
    ensures r == Retried(tryAt, maxRetries)
  {
    var lastError: Option<string> := None;
    var waits: seq<int> := [];
    var attempt := 1;
    while attempt <= maxRetries
      invariant 1 <= attempt <= maxRetries + 1
      invariant FirstSuccess(tryAt, attempt - 1) == attempt
      invariant lastError == if attempt == 1 then None else Some(tryAt(attempt - 1).error)
      invariant waits == Waits(if attempt <= maxRetries then attempt - 1 else if maxRetries == 0 then 0 else maxRetries - 1)
    {
      var result := tryAt(attempt);
      if result.Success? {
        return Run(Success(result.value), attempt, waits);
      }
      lastError := Some(result.error);
      if attempt < maxRetries {
        waits := waits + [1000 * attempt];
      }
      attempt := attempt + 1;
    }
    r := Run(Failure(lastError), maxRetries, waits);
  }
}
