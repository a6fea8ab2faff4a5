/** MicroProfile Fault Tolerance as the core uses it: a method annotated with
    `@Retry` and `@Fallback` is attempted up to `maxRetries + 1` times; the
    first attempt that returns gives the result, and when every attempt
    raises the fallback value is returned instead of the exception. Delays,
    jitter and the overall retry duration are not modelled. */
module FaultTolerance {
  import opened Base

  /** Attempt `k` is the first that returns. */
  predicate FirstSuccessAt<T>(call: nat -> Try<T>, k: nat) {
    call(k).Ok? && forall j :: 0 <= j < k ==> call(j).Raised?
  }

  /** What one retried call did: how many attempts it made and what it
      returned to its caller. */
  datatype RetryRun<T> = RetryRun(attempts: nat, value: T)

  function RetryFrom<T>(call: nat -> Try<T>, k: nat, maxRetries: nat, fallback: T): (r: RetryRun<T>)
    requires k <= maxRetries
    ensures k < r.attempts <= maxRetries + 1
    ensures forall j :: k <= j < r.attempts - 1 ==> call(j).Raised?
    ensures call(r.attempts - 1).Ok? ==> r.value == call(r.attempts - 1).value
    ensures call(r.attempts - 1).Raised? ==> r.attempts == maxRetries + 1 && r.value == fallback
    decreases maxRetries - k
  {
    match call(k)
    case Ok(v) => RetryRun(k + 1, v)
    case Raised =>
      if k == maxRetries then RetryRun(k + 1, fallback)
      else RetryFrom(call, k + 1, maxRetries, fallback)
  }

  /** `@Retry` + `@Fallback` around `call`: attempts `0, 1, ...` until one
      returns; when all `maxRetries + 1` attempts raise, the fallback. */
  function WithRetry<T>(call: nat -> Try<T>, maxRetries: nat, fallback: T): (r: RetryRun<T>)
    ensures 1 <= r.attempts <= maxRetries + 1
    ensures forall j :: 0 <= j < r.attempts - 1 ==> call(j).Raised?
    ensures call(r.attempts - 1).Ok? ==> r.value == call(r.attempts - 1).value
    ensures call(r.attempts - 1).Raised? ==> r.attempts == maxRetries + 1 && r.value == fallback
  {
    RetryFrom(call, 0, maxRetries, fallback)
  }
}
