/** How long a runner waits before it retries a revocation: a capped exponential bound, and full jitter below it. */
module RetryDelays {
  import opened Options
  import opened Revocations
  import opened Lifecycle
  import opened Management
  import opened RepositoryModel

  function Power2(n: nat): nat {
    if n == 0 then 1 else 2 * Power2(n - 1)
  }

  lemma {:induction false} Power2Grows(m: nat, n: nat)
    requires m <= n
    ensures Power2(m) <= Power2(n)
    decreases n - m
  {
    if m < n { Power2Grows(m + 1, n); }
  }

  /** min(5s * 2^(attempt-1), 15m), an attempt below 1 counting as 1. */
  function RetryBound(attempt: int): Duration {
    if attempt <= 1 then MinRevocationRetryDelay
    else
      var exponential := MinRevocationRetryDelay * Power2(attempt - 1);
      if exponential < MaxRevocationRetryDelay then exponential else MaxRevocationRetryDelay
  }

  /** Doubling until the cap: the value never exceeds it, so a huge attempt number cannot overflow. */
  method RetryUpperBound(attempt: int) returns (upper: Duration)
    ensures upper == RetryBound(attempt)
    ensures MinRevocationRetryDelay <= upper <= MaxRevocationRetryDelay
  {
    if attempt <= 1 { return MinRevocationRetryDelay; }
    upper := MinRevocationRetryDelay;
    var current := 1;
    while current < attempt && upper < MaxRevocationRetryDelay
      invariant 1 <= current <= attempt
      invariant upper == MinRevocationRetryDelay * Power2(current - 1) && MinRevocationRetryDelay <= upper <= MaxRevocationRetryDelay
    {
      Power2Grows(current, attempt - 1);
      if upper > MaxRevocationRetryDelay / 2 { return MaxRevocationRetryDelay; }
      upper := upper * 2;
      current := current + 1;
    }
    Power2Grows(current - 1, attempt - 1);
    if upper > MaxRevocationRetryDelay { return MaxRevocationRetryDelay; }
  }

  /** A uniform draw below `span`, or a failure of the entropy source. */
  ghost predicate Fair(draw: nat -> Option<nat>) {
    forall span | span > 0 :: draw(span).Some? ==> draw(span).value < span
  }

  method FullJitterRetryDelay(attempt: int, draw: Option<nat -> Option<nat>>) returns (delay: Duration)
    requires draw.Some? ==> Fair(draw.value)
    ensures MinRevocationRetryDelay <= delay <= RetryBound(attempt) <= MaxRevocationRetryDelay
    ensures draw.None? ==> delay == MinRevocationRetryDelay
    ensures draw.Some? && RetryBound(attempt) > MinRevocationRetryDelay ==>
              var offset := draw.value(RetryBound(attempt) - MinRevocationRetryDelay + 1);
              delay == MinRevocationRetryDelay + if offset.Some? then offset.value else 0
  {
    var upper := RetryUpperBound(attempt);
    if upper <= MinRevocationRetryDelay || draw.None? { return MinRevocationRetryDelay; }
    var span := upper - MinRevocationRetryDelay + 1;
    var offset := draw.value(span);
    if offset.None? { return MinRevocationRetryDelay; }
    return MinRevocationRetryDelay + offset.value;
  }

  /** RetryRevocation never refuses a delay for its size when it comes from the sampler. */
  lemma SampledDelayIsAccepted(attempt: int, delay: Duration, claim: ClaimFence, code: FailureCode, detail: string, now: Time)
    requires MinRevocationRetryDelay <= delay <= RetryBound(attempt)
    requires ValidFailure(code, detail) && ValidClaimFence(claim)
    ensures Refusal(RetryRevocation(claim, delay, code, detail, now)).None?
  {
    hide ValidFailure, ValidClaimFence;
  }

  /** The bound doubles from attempt to attempt until it stays at fifteen minutes, which it reaches at the ninth. */
  lemma BoundDoubles(attempt: int)
    requires attempt >= 1
    ensures RetryBound(attempt + 1) == if 2 * RetryBound(attempt) < MaxRevocationRetryDelay then 2 * RetryBound(attempt) else MaxRevocationRetryDelay
    ensures attempt >= 9 ==> RetryBound(attempt) == MaxRevocationRetryDelay
    ensures attempt < 9 ==> RetryBound(attempt) < MaxRevocationRetryDelay
  {
    assert Power2(attempt) == 2 * Power2(attempt - 1);
    assert Power2(7) == 128 && Power2(8) == 256;
    if attempt >= 9 { Power2Grows(8, attempt - 1); } else { Power2Grows(attempt - 1, 7); }
  }

  /**
   Draws are nanoseconds, the management contract wants microseconds: a retry with the delay sampled for an offset
   leaves a record that the contract accepts exactly if the offset is a whole number of microseconds.
   */
  lemma SampledRetryIsManageableExactly(r: Record, l: Label, offset: nat)
    requires WellFormed(r) && Chronological(r) && PrepareFormat(r.rev.frozen) && ManagementFormat(r.rev.frozen)
    requires WholeInstants(r) && l.Retry? && Enabled(r, l)
    requires l.now >= r.rev.updatedAt && l.now % Microsecond == 0 && l.delay == MinRevocationRetryDelay + offset
    ensures ValidManagementRecord(Project(Next(r, l))) <==> offset % Microsecond == 0
  {
    hide *;
    RetryManageableExactly(r, l);
    OffsetDecides(offset);
  }

  lemma OffsetDecides(offset: nat)
    ensures (MinRevocationRetryDelay + offset) % Microsecond == 0 <==> offset % Microsecond == 0
  {
  }
}
