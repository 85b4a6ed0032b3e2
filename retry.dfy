/** `retry_with_backoff` (agents/tofumatic/main.py): call a function up to
    `maxRetries` times, sleeping `base * 2^k` after the k-th failure, and
    re-raise the exception of the final attempt. Delays are recorded as
    multiples of the base delay; the sleep itself is not modelled. */
module Backoff {
  import opened Wrappers

  /** What one wrapped call does: its result (`Value(None)` is Python's
      `None` from the fall-through return), the number of attempts made and
      the delays slept, in multiples of the base delay. */
  datatype RetryRun<T> = RetryRun(result: Outcome<Option<T>>, calls: nat, sleeps: seq<nat>)

  function Pow2(k: nat): (r: nat)
    ensures r >= 1
  {
    if k == 0 then 1 else 2 * Pow2(k - 1)
  }

  /** The run from attempt `k` on; `attempt(j)` is what the j-th call of the wrapped function does. */
  function RetryFrom<T>(maxRetries: int, attempt: nat -> Outcome<T>, k: nat): RetryRun<T>
    requires k < maxRetries
    decreases maxRetries - k
  {
    match attempt(k)
    case Value(v) => RetryRun(Value(Some(v)), k + 1, [])
    case Raise(e) =>
      if k == maxRetries - 1 then RetryRun(Raise(e), k + 1, [])
      else
        var rest := RetryFrom(maxRetries, attempt, k + 1);
        rest.(sleeps := [Pow2(k)] + rest.sleeps)
  }

  /** The wrapper's behaviour; a non-positive `maxRetries` never calls the function. */
  function Retry<T>(maxRetries: int, attempt: nat -> Outcome<T>): RetryRun<T>
  {
    if maxRetries <= 0 then RetryRun(Value(None), 0, []) else RetryFrom(maxRetries, attempt, 0)
  }

  /** The attempt loop of the wrapper. */
  method RetryWithBackoff<T>(maxRetries: int, attempt: nat -> Outcome<T>)
      returns (result: Outcome<Option<T>>, calls: nat, sleeps: seq<nat>)
    ensures RetryRun(result, calls, sleeps) == Retry(maxRetries, attempt)
  {
    var k: nat := 0;
    calls, sleeps := 0, [];
    while k < maxRetries
      invariant calls == k && |sleeps| == k
      invariant k > 0 ==> k < maxRetries
      invariant k < maxRetries ==>
        Retry(maxRetries, attempt) == var r := RetryFrom(maxRetries, attempt, k); r.(sleeps := sleeps + r.sleeps)
      decreases maxRetries - k
    {
      var o := attempt(k);
      calls := calls + 1;
      if o.Value? {
        return Value(Some(o.value)), calls, sleeps;
      }
      if k == maxRetries - 1 {
        return Raise(o.error), calls, sleeps;
      }
      ghost var rest := RetryFrom(maxRetries, attempt, k + 1);
      assert sleeps + ([Pow2(k)] + rest.sleeps) == (sleeps + [Pow2(k)]) + rest.sleeps;
      sleeps := sleeps + [Pow2(k)];
      k := k + 1;
    }
    result := Value(None);
  }

  lemma {:induction false} RetryFromFacts<T>(maxRetries: int, attempt: nat -> Outcome<T>, k: nat)
    requires k < maxRetries
    ensures var r := RetryFrom(maxRetries, attempt, k);
      && k < r.calls <= maxRetries
      && |r.sleeps| == r.calls - 1 - k
      && (forall j :: 0 <= j < |r.sleeps| ==> r.sleeps[j] == Pow2(k + j))
      && (forall j :: k <= j < r.calls - 1 ==> attempt(j).Raise?)
      && (r.result.Value? ==> r.result.value.Some? && attempt(r.calls - 1) == Value(r.result.value.value))
      && (r.result.Raise? ==> r.calls == maxRetries && attempt(maxRetries - 1) == Raise(r.result.error))
    decreases maxRetries - k
  {
    if attempt(k).Raise? && k < maxRetries - 1 {
      RetryFromFacts(maxRetries, attempt, k + 1);
    }
  }

  /** The wrapper calls the function at most `maxRetries` times and only
      when `maxRetries` is positive, in which case it never yields Python's
      `None` of its own. It sleeps once after every attempt but the last,
      `2^k` base delays after attempt k. */
  lemma RetryAttemptsAndSleeps<T>(maxRetries: int, attempt: nat -> Outcome<T>)
    ensures var r := Retry(maxRetries, attempt);
      && (maxRetries <= 0 ==> r.calls == 0 && r.result == Value(None) && r.sleeps == [])
      && (maxRetries > 0 ==> 1 <= r.calls <= maxRetries && r.result != Value(None))
      && (r.calls > 0 ==> |r.sleeps| == r.calls - 1)
      && (forall j :: 0 <= j < |r.sleeps| ==> r.sleeps[j] == Pow2(j))
  {
    if maxRetries > 0 {
      RetryFromFacts(maxRetries, attempt, 0);
    }
  }

  /** A value is returned only from the first attempt that did not raise. */
  lemma RetryReturnsFirstSuccess<T>(maxRetries: int, attempt: nat -> Outcome<T>, v: T)
    requires Retry(maxRetries, attempt).result == Value(Some(v))
    ensures var r := Retry(maxRetries, attempt);
      && r.calls >= 1 && attempt(r.calls - 1) == Value(v)
      && forall j :: 0 <= j < r.calls - 1 ==> attempt(j).Raise?
  {
    RetryFromFacts(maxRetries, attempt, 0);
  }

  /** An exception escapes only after `maxRetries` failed attempts, and it is the last one's. */
  lemma RetryReraisesLast<T>(maxRetries: int, attempt: nat -> Outcome<T>, e: Error)
    requires Retry(maxRetries, attempt).result == Raise(e)
    ensures Retry(maxRetries, attempt).calls == maxRetries
    ensures attempt(maxRetries - 1) == Raise(e)
    ensures forall j :: 0 <= j < maxRetries ==> attempt(j).Raise?
  {
    RetryFromFacts(maxRetries, attempt, 0);
  }

  /** If some attempt within the cap succeeds, the wrapper returns a value. */
  lemma RetrySucceedsIfSomeAttemptDoes<T>(maxRetries: int, attempt: nat -> Outcome<T>, j: nat)
    requires j < maxRetries && attempt(j).Value?
    ensures Retry(maxRetries, attempt).result.Value?
  {
    RetryFromFacts(maxRetries, attempt, 0);
  }

  /** A function that never raises is called exactly once. */
  lemma RetryOfTotal<T>(maxRetries: int, attempt: nat -> Outcome<T>)
    requires maxRetries > 0 && attempt(0).Value?
    ensures Retry(maxRetries, attempt) == RetryRun(Value(Some(attempt(0).value)), 1, [])
  {
  }

  /** Three retries over a function that raises twice and then returns 42:
      the result is 42 after sleeps of one and then two base delays. */
  lemma RetryTwoFailuresThenValue(e: Error)
    ensures var attempt := (j: nat) => if j < 2 then Raise(e) else Value(42);
      Retry(3, attempt) == RetryRun(Value(Some(42)), 3, [1, 2])
  {
    var attempt := (j: nat) => if j < 2 then Raise(e) else Value(42);
    assert RetryFrom(3, attempt, 2) == RetryRun(Value(Some(42)), 3, []);
    assert Pow2(1) == 2;
  }
}
