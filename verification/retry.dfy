/**
 * `retry_on_failure(max_attempts, delay)` from utils.py: the wrapper calls the
 * decorated function up to `max_attempts` times, pausing `delay * (k + 1)`
 * seconds after the k-th failed attempt (counting from 0) unless it was the
 * last, and raises the last exception when every attempt failed.
 *
 * The decorated function is the parameter `call`: `call(k)` is what the k-th
 * attempt returns or raises. The clock is not modelled; the pauses are
 * reported as the list of durations handed to `time.sleep`.
 */
module Retry {
  import opened PyBase

  /** `time.sleep` refuses a negative duration with this error. */
  const SleepError := ValueError("sleep length must be non-negative")

  /** Every attempt before the k-th failed. */
  ghost predicate FailedBefore<T>(call: nat -> Result<T>, k: nat)
  {
    forall j: nat :: j < k ==> call(j).Err?
  }

  /** The wrapper: what it returns or raises, how many calls it made, and the pauses it slept. */
  method RetryOnFailure<T>(maxAttempts: int, delay: real, call: nat -> Result<T>)
    returns (outcome: Result<T>, calls: nat, sleeps: seq<real>)
    // With no attempt at all, `raise None` is itself an error.
    ensures maxAttempts <= 0 <==> calls == 0
    ensures maxAttempts <= 0 ==> outcome == Err(TypeError) && sleeps == []
    ensures calls <= maxAttempts || calls == 0
    // The calls made are attempts 0 .. calls-1, all but the last failed.
    ensures calls > 0 ==> FailedBefore(call, calls - 1)
    ensures outcome.Ok? ==> calls > 0 && outcome == call(calls - 1)
    // A failure is the last attempt's exception, or the pause after an attempt refusing a negative delay.
    ensures outcome.Err? && calls > 0 ==>
      call(calls - 1).Err? &&
      ((calls == maxAttempts && outcome == call(calls - 1)) ||
       (calls < maxAttempts && delay < 0.0 && outcome == Err(SleepError)))
    // One pause after each failed attempt but the last, growing linearly.
    ensures |sleeps| == if calls == 0 then 0 else calls - 1
    ensures forall j :: 0 <= j < |sleeps| ==> sleeps[j] == delay * (j + 1) as real
    // With a usable delay the wrapper succeeds exactly when some attempt within the budget does.
    ensures delay >= 0.0 ==> (outcome.Ok? <==> exists j: nat :: j < maxAttempts && call(j).Ok?)
  {
    var last: Option<Exception> := None;
    sleeps := [];
    var attempt: nat := 0;
    while attempt < maxAttempts
      invariant maxAttempts > 0 ==> attempt <= maxAttempts
      invariant maxAttempts <= 0 ==> attempt == 0
      invariant FailedBefore(call, attempt)
      invariant attempt == 0 <==> last == None
      invariant attempt > 0 ==> last == Some(call(attempt - 1).error)
      invariant |sleeps| == if attempt == maxAttempts && attempt > 0 then attempt - 1 else attempt
      invariant forall j :: 0 <= j < |sleeps| ==> sleeps[j] == delay * (j + 1) as real
      decreases maxAttempts - attempt
    {
      var r := call(attempt);
      if r.Ok? {
        return r, attempt + 1, sleeps;
      }
      last := Some(r.error);
      if attempt < maxAttempts - 1 {
        var pause := delay * (attempt + 1) as real;
        if pause < 0.0 {
          return Err(SleepError), attempt + 1, sleeps;
        }
        sleeps := sleeps + [pause];
      }
      attempt := attempt + 1;
    }
    calls := attempt;
    match last
    case None => outcome := Err(TypeError);
    case Some(e) => outcome := Err(e);
  }

  /** The sum of the durations. */
  function TotalSleep(sleeps: seq<real>): real
  {
    if sleeps == [] then 0.0 else TotalSleep(sleeps[..|sleeps| - 1]) + sleeps[|sleeps| - 1]
  }

  /**
   * The linear back-off adds up to `delay * n * (n + 1) / 2` after `n` pauses:
   * a wrapper whose attempts all fail sleeps `delay * m * (m - 1) / 2` in all
   * for `m` attempts.
   */
  lemma {:induction false} LinearBackoffTotal(sleeps: seq<real>, delay: real)
    requires forall j :: 0 <= j < |sleeps| ==> sleeps[j] == delay * (j + 1) as real
    ensures TotalSleep(sleeps) == delay * (|sleeps| * (|sleeps| + 1)) as real / 2.0
  {
    if sleeps != [] {
      var n := |sleeps|;
      var init := sleeps[..n - 1];
      assert forall j :: 0 <= j < |init| ==> init[j] == sleeps[j];
      LinearBackoffTotal(init, delay);
      assert sleeps[n - 1] == delay * n as real;
      assert ((n - 1) * n) as real + 2.0 * n as real == (n * (n + 1)) as real;
    }
  }
}
