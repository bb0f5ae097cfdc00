/** Retrying calls to the generation server. */
module Retry {
  import opened Types

  datatype ClientError = ClientError(statusCode: nat, message: string)

  /** Bad gateway, service unavailable, gateway timeout, HTTP version not supported, variant also negotiates. */
  const ALLOWED_RETRY_CODES: set<nat> := {502, 503, 504, 505, 506}

  /** The call's own result, or the backoff overflowing 64 bits: a build with overflow checks panics there, one
      without sleeps for 0 ms. */
  datatype Outcome<T> = Returned(result: Result<T, ClientError>) | Overflowed

  function Pow2(n: nat): nat {
    if n == 0 then 1 else 2 * Pow2(n - 1)
  }

  predicate Retryable<T>(r: Result<T, ClientError>) {
    r.Err? && r.error.statusCode in ALLOWED_RETRY_CODES
  }

  /** Bad gateway to variant-also-negotiates are retried, and no other failure is. */
  lemma GatewayFailuresAreRetryable<T>(r: Result<T, ClientError>)
    ensures Retryable(r) <==> r.Err? && 502 <= r.error.statusCode <= 506
  {
  }

  /** The first n calls all fail retryably. */
  ghost predicate AllFail<T>(answer: nat -> Result<T, ClientError>, n: nat) {
    forall i :: 1 <= i <= n ==> Retryable(answer(i))
  }

  const BACKOFF_BITS: nat := 64

  /** Calls until a success, an error that is not to be retried, or the last retry, sleeping twice as long each
      time; answer(i) is what the i-th call returns. There are at most maxRetries + 1 calls, and the first success
      or final error is returned by the call that gave it. If all calls fail retryably, the sleeps add up to
      2^maxRetries - 1 ms, unless there are more than 64 retries: then, and only then, the backoff overflows. */
  method RetryFunction<T>(maxRetries: nat, answer: nat -> Result<T, ClientError>)
    returns (outcome: Outcome<T>, calls: nat, slept: nat)
    ensures 1 <= calls <= maxRetries + 1 && AllFail(answer, calls - 1)
    ensures outcome.Returned? ==>
              && outcome.result == answer(calls)
              && (Retryable(answer(calls)) ==> calls == maxRetries + 1)
              && slept == Pow2(calls - 1) - 1
    ensures AllFail(answer, maxRetries + 1) && maxRetries <= BACKOFF_BITS ==>
              outcome == Returned(answer(maxRetries + 1)) && calls == maxRetries + 1 && slept == Pow2(maxRetries) - 1
    ensures outcome.Overflowed? <==> maxRetries > BACKOFF_BITS && AllFail(answer, BACKOFF_BITS + 1)
    ensures outcome.Overflowed? ==> calls == BACKOFF_BITS + 1 && slept == Pow2(BACKOFF_BITS) - 1
  {
    var attempt := 0;
    slept := 0;
    while true
      invariant attempt <= maxRetries && attempt <= BACKOFF_BITS
      invariant AllFail(answer, attempt) && slept == Pow2(attempt) - 1
      decreases maxRetries - attempt
    {
      attempt := attempt + 1;
      match answer(attempt) {
        case Ok(res) =>
          return Returned(Ok(res)), attempt, slept;
        case Err(error) =>
          if error.statusCode in ALLOWED_RETRY_CODES {
            if attempt > maxRetries {
              return Returned(Err(error)), attempt, slept;
            }
            if attempt - 1 >= BACKOFF_BITS {
              return Overflowed, attempt, slept;
            }
            slept := slept + Pow2(attempt - 1);
            continue;
          }
          return Returned(Err(error)), attempt, slept;
      }
    }
  }
}
