/** When a failed provider call is tried again, and after how long: retry_policy.go. */
module Retry {
  import opened Events

  /** What the policy looks at in an error: its HTTP status (0 if none), its own verdict if it has one,
      whether it is a temporary network error, and whether its text names a reset, a refusal or a timeout. */
  datatype ProviderFailure = ProviderFailure(status: int, verdict: Option<bool>, temporary: bool, transientText: bool)

  datatype Decision = Decision(retry: bool, delay: int)

  datatype RetryPolicy = RetryPolicy(maxAttempts: int, retryableHTTP: Option<map<int, bool>>,
                                     backoff: Option<int -> int>) {

    /** The number of attempts the policy allows a turn. */
    function Limit(): (n: int)
      ensures n != 0 && (maxAttempts == 0 ==> n == 3)
    {
      if maxAttempts == 0 then 3 else maxAttempts
    }

    /** A status decides by the table, or by the default one; without a status the error's own verdict decides, and
        without that whether it is transient. */
    predicate Retryable(err: ProviderFailure)
      ensures err.status > 0 && retryableHTTP == None ==>
                (Retryable(err) <==> err.status in {408, 429, 500, 502, 503, 504, 529})
      ensures err.status > 0 && retryableHTTP.Some? ==>
                (Retryable(err) <==> err.status in retryableHTTP.value && retryableHTTP.value[err.status])
      ensures err.status <= 0 && err.verdict.Some? ==> (Retryable(err) <==> err.verdict == Some(true))
      ensures err.status <= 0 && err.verdict == None ==> (Retryable(err) <==> err.temporary || err.transientText)
    {
      if err.status > 0 then
        var table := match retryableHTTP case None => DEFAULT_RETRYABLE_HTTP case Some(t) => t;
        err.status in table && table[err.status]
      else if err.verdict.Some? then err.verdict.value
      else err.temporary || err.transientText
    }

    function Decide(err: ProviderFailure, attempt: int): (d: Decision)
      ensures d.retry <==> attempt < Limit() && Retryable(err)
      ensures !d.retry ==> d.delay == 0
      ensures d.retry && backoff.Some? ==> d.delay == backoff.value(attempt)
      ensures d.retry && backoff == None && attempt >= 1 ==>
              d.delay == WaitedBefore(attempt + 1) - WaitedBefore(attempt)
    {
      if attempt >= Limit() || !Retryable(err) then Decision(false, 0)
      else Decision(true, match backoff case None => DefaultBackoff(attempt) case Some(f) => f(attempt))
    }
  }

  const DEFAULT_RETRYABLE_HTTP: map<int, bool> :=
    map[408 := true, 429 := true, 500 := true, 502 := true, 503 := true, 504 := true, 529 := true]

  /** The default policy is the one whose fields are all left out. */
  lemma {:induction false} DefaultsAgree(err: ProviderFailure, attempt: int)
    ensures DEFAULT_POLICY.Decide(err, attempt) == RetryPolicy(0, None, None).Decide(err, attempt)
  {}

  const DEFAULT_POLICY := RetryPolicy(3, Some(DEFAULT_RETRYABLE_HTTP), Some(DefaultBackoff))

  function Pow2(n: nat): (p: nat)
    ensures p >= 1
  {
    if n == 0 then 1 else 2 * Pow2(n - 1)
  }

  /** Milliseconds to wait after attempt `attempt`. Attempts are numbered from 1. */
  function DefaultBackoff(attempt: int): int {
    250 * Pow2(if attempt < 1 then 0 else attempt - 1)
  }

  /** Milliseconds waited, in all, before attempt `n`. */
  function WaitedBefore(n: nat): int {
    if n <= 1 then 0 else WaitedBefore(n - 1) + DefaultBackoff(n - 1)
  }

  lemma {:induction false} DefaultBackoffTotals(n: nat)
    requires n >= 1
    ensures WaitedBefore(n) == 250 * (Pow2(n - 1) - 1)
  {
    if n > 1 {
      DefaultBackoffTotals(n - 1);
    }
  }

  lemma {:induction false} Pow2Sum(a: nat, b: nat)
    ensures Pow2(a + b) == Pow2(a) * Pow2(b)
  {
    if a > 0 {
      Pow2Sum(a - 1, b);
    }
  }

  lemma {:induction false} Pow2Grows(a: nat, b: nat)
    requires a <= b
    ensures Pow2(a) <= Pow2(b)
    decreases b
  {
    if a < b {
      Pow2Grows(a, b - 1);
    }
  }

  lemma {:induction false} Pow2Of35()
    ensures Pow2(35) == 0x8_0000_0000
  {
    assert Pow2(5) == 32;
    Pow2Sum(5, 5);
    Pow2Sum(10, 5);
    Pow2Sum(15, 5);
    Pow2Sum(20, 15);
  }

  /** As a 64-bit count of nanoseconds the default delay is exact up to attempt 36, and no further. */
  lemma {:induction false} DefaultBackoffFits(attempt: nat)
    requires attempt >= 1
    ensures DefaultBackoff(attempt) * 1_000_000 < 0x8000_0000_0000_0000 <==> attempt <= 36
  {
    Pow2Of35();
    if attempt <= 36 {
      Pow2Grows(attempt - 1, 35);
    } else {
      Pow2Sum(1, 35);
      Pow2Grows(36, attempt - 1);
    }
  }
}
