/** reconcile-payments.ts: what an answer to a refund means, and when to try again. */
module Retries {
  import opened Basics

  const MAX_REFUND_ATTEMPTS := 5
  const MAX_CHARGE_RETRY_DELAY_MS := 10 * MINUTE_MS

  /** Attempts are counted by the claim, from one. */
  type Attempt = n: nat | 1 <= n witness 1

  function PowerOfTwo(n: nat): nat { if n == 0 then 1 else 2 * PowerOfTwo(n - 1) }

  /** 1, 2, 4, 8, ... minutes after the given attempt. */
  function RetryDelayMs(attempt: Attempt): int { MINUTE_MS * PowerOfTwo(attempt - 1) }

  function ChargeRetryDelayMs(attempt: Attempt): int { Min(RetryDelayMs(attempt), MAX_CHARGE_RETRY_DELAY_MS) }

  lemma {:induction false} PowersGrow(a: nat, b: nat)
    requires a <= b
    ensures 1 <= PowerOfTwo(a) <= PowerOfTwo(b)
    decreases b
  {
    if a == b {
      if a != 0 { PowersGrow(a - 1, a - 1); }
    } else {
      PowersGrow(a, b - 1);
    }
  }

  /** An unknown charge is tried again after 1 to 10 minutes, never sooner than the time before. */
  lemma ChargeDelaysGrow(a: Attempt, b: Attempt)
    requires a <= b
    ensures MINUTE_MS <= ChargeRetryDelayMs(a) <= ChargeRetryDelayMs(b) <= 10 * MINUTE_MS
  {
    PowersGrow(a - 1, b - 1);
    PowersGrow(0, a - 1);
  }

  lemma FirstDelays()
    ensures RetryDelayMs(1) == 1 * MINUTE_MS && RetryDelayMs(2) == 2 * MINUTE_MS
    ensures RetryDelayMs(3) == 4 * MINUTE_MS && RetryDelayMs(4) == 8 * MINUTE_MS
  {
  }

  datatype RefundAnswer = Refunded | Failed(reason: string, retryable: bool) | Unknown

  datatype RefundVerdict = Done | GiveUp(reason: string) | TryAgain(delayMs: int)

  /** What one refund answer means for a payment claimed `attempt` times. */
  function Judge(attempt: Attempt, answer: RefundAnswer): RefundVerdict {
    if answer.Refunded? then Done
    else
      var reason := if answer.Unknown? then "timeout" else answer.reason;
      if (answer.Failed? && !answer.retryable) || attempt >= MAX_REFUND_ATTEMPTS then GiveUp(reason)
      else TryAgain(RetryDelayMs(attempt))
  }
}
