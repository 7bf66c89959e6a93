/**
 Outcome classification and retry-delay arithmetic
 (src/webhook_platform/deliveries/domain/retry.py). Delays are whole seconds; the jitter sample is a
 real in [0, 1) and stands for random.random().
 */
module Retry {
  import opened Wrappers
  import opened Decimals

  const RETRY_AFTER_CAP: nat := 21600
  const MICROS: nat := 1_000_000

  predicate IsSuccess(status: Option<int>) {
    status.Some? && 200 <= status.value < 300
  }

  predicate IsRetryable(status: Option<int>, networkError: bool) {
    networkError || (status.Some? && (status.value in {408, 425, 429} || status.value >= 500))
  }

  function Min(a: int, b: int): int {
    if a <= b then a else b
  }

  function Max(a: int, b: int): int {
    if a >= b then a else b
  }

  /** delays[min(failed - 1, len - 1)], with Python's negative index for a zeroth attempt. */
  function BaseDelay(failedAttempt: nat, delays: seq<nat>): nat
    requires |delays| > 0
  {
    if failedAttempt == 0 then delays[|delays| - 1] else delays[Min(failedAttempt - 1, |delays| - 1)]
  }

  /** int(base * ratio * sample), for a draw from [0, 1). */
  function Jitter(base: nat, ratio: real, sample: real): int {
    (base as real * ratio * sample).Floor
  }

  function RetryDelay(
    failedAttempt: nat, delays: seq<nat>, ratio: real, retryAfter: Option<nat>, sample: real
  ): int
    requires |delays| > 0
  {
    var base := BaseDelay(failedAttempt, delays);
    var jittered := base + Jitter(base, ratio, sample);
    if retryAfter.Some? then Max(jittered, Min(retryAfter.value, RETRY_AFTER_CAP)) else jittered
  }

  /** What the date parser made of a header that is not a number: nothing, or an instant in microseconds. */
  function ParseRetryAfter(value: Option<string>, date: Option<int>, now: int): (r: Option<nat>)
    ensures r.Some? ==> r.value <= RETRY_AFTER_CAP
  {
    if value.None? || value.value == "" then None
    else if AllDigits(value.value) then Some(Min(DecimalValue(value.value), RETRY_AFTER_CAP))
    else if date.None? then None
    else Some(Min(Max(0, (date.value - now) / MICROS), RETRY_AFTER_CAP))
  }
}
