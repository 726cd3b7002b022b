/** Extractor retries: a bounded number of calls, with a doubling delay that saturates. */
module Retry {
  import opened Common

  /** Nanoseconds in a signed 64-bit integer. */
  newtype Duration = x: int | -0x8000_0000_0000_0000 <= x < 0x8000_0000_0000_0000

  const DefaultBase: Duration := 25_000_000
  const DefaultMaximum: Duration := 1_000_000_000

  function Base(base: Duration): (r: Duration)
    ensures r > 0
  {
    if base <= 0 then DefaultBase else base
  }

  function Maximum(maximum: Duration): (r: Duration)
    ensures r > 0
  {
    if maximum <= 0 then DefaultMaximum else maximum
  }

  function Power(k: nat): (r: nat)
    ensures r >= 1
  {
    if k == 0 then 1 else 2 * Power(k - 1)
  }

  function Min(a: int, b: int): int {
    if a <= b then a else b
  }

  /** A value doubled `k` times. */
  function Doubled(base: int, k: nat): int {
    if k == 0 then base else 2 * Doubled(base, k - 1)
  }

  /** Every value on the way to the last doubling is within the bound. */
  predicate StaysWithin(base: int, doublings: nat, bound: int) {
    forall j :: 0 <= j <= doublings ==> Doubled(base, j) <= bound
  }

  lemma {:induction false} DoubledIsPower(base: int, k: nat)
    ensures Doubled(base, k) == base * Power(k)
  {
    if k > 0 {
      DoubledIsPower(base, k - 1);
      assert 2 * (base * Power(k - 1)) == base * (2 * Power(k - 1));
    }
  }

  lemma {:induction false} DoubledGrows(base: int, j: nat, k: nat)
    requires base > 0 && j <= k
    ensures 0 < Doubled(base, j) <= Doubled(base, k)
    decreases k
  {
    if j < k {
      DoubledGrows(base, j, k - 1);
    } else if j > 0 {
      DoubledGrows(base, j - 1, k - 1);
    }
  }

  /** The wait before retry `attempt`, in unbounded arithmetic: min(max, base * 2^(attempt - 1)) after defaulting. */
  function Delay(base: Duration, maximum: Duration, attempt: nat): int {
    Min(Maximum(maximum) as int, (Base(base) as int) * Power(if attempt == 0 then 0 else attempt - 1))
  }

  /**
   extractorRetryDelay, in 64-bit durations: it doubles in place and stops before it
   could pass the maximum. `doublings` counts how often; every value on the way,
   base * 2^j for j up to that count, is within the maximum once the base is.
   */
  method RetryDelay(base: Duration, maximum: Duration, attempt: nat) returns (delay: Duration, doublings: nat)
    ensures delay as int == Delay(base, maximum, attempt)
    ensures 0 < delay <= Maximum(maximum)
    ensures doublings == 0 || doublings < attempt
    ensures Base(base) <= Maximum(maximum) ==> StaysWithin(Base(base) as int, doublings, Maximum(maximum) as int)
    ensures Base(base) > Maximum(maximum) ==> doublings == 0
  {
    var b, max := Base(base), Maximum(maximum);
    ghost var start, last := b as int, if attempt == 0 then 0 else attempt - 1;
    DoubledIsPower(start, last);
    doublings := 0;
    if b > max {
      DoubledGrows(start, 0, last);
      return max, 0;
    }
    var index := 1;
    while index < attempt
      invariant 1 <= index <= last + 1
      invariant doublings == index - 1
      invariant b as int == Doubled(start, index - 1) && 0 < b <= max
      invariant StaysWithin(start, doublings, max as int)
    {
      if b >= max || b > max / 2 {
        DoubledGrows(start, index, last);
        return max, doublings;
      }
      b := b * 2;
      index := index + 1;
      doublings := doublings + 1;
    }
    return b, doublings;
  }

  /** Later retries never wait less. */
  lemma DelayIsMonotone(base: Duration, maximum: Duration, j: nat, k: nat)
    requires j <= k
    ensures Delay(base, maximum, j) <= Delay(base, maximum, k)
  {
    var b, first, second := Base(base) as int, if j == 0 then 0 else j - 1, if k == 0 then 0 else k - 1;
    DoubledIsPower(b, first);
    DoubledIsPower(b, second);
    DoubledGrows(b, first, second);
  }

  // ---------------------------------------------------------------------
  // The loop

  /** What one call of the extractor, and the wait that may follow it, would do. */
  datatype Try = Succeeds(extraction: string) | Fails(retryable: bool)

  datatype Interruption = NoInterruption | BeforeCall | InEvent | InWait

  datatype Error = ExtractionFailed(call: nat) | ContextEnded | EventFailed | WaitFailed

  /** This call leads to another one, unless the retries are used up. */
  predicate Retries(t: Try, i: Interruption) {
    t.Fails? && t.retryable && i == NoInterruption
  }

  /**
   Calls the extractor until it succeeds, fails for good, is interrupted or the
   retries are used up; `waits` are the delays it sat out, in order. What call i
   would do is `tries[i]`, and `interruptions[i]` is where it would be cut short.
   */
  method ExtractWithRetry(tries: seq<Try>, interruptions: seq<Interruption>, retries: int, retrySafe: bool,
                          base: Duration, maximum: Duration)
    returns (r: Result<string, Error>, calls: nat, waits: seq<Duration>)
    requires |tries| == |interruptions| && |tries| > 0 && |tries| > retries
    ensures calls <= (if retrySafe && retries > 0 then retries else 0) + 1
    ensures !retrySafe || retries <= 0 ==> calls == 1 && waits == []
    ensures forall i :: 0 <= i < |waits| ==> waits[i] as int == Delay(base, maximum, i + 1)
    ensures |waits| <= calls <= |waits| + 1
    ensures forall i :: 0 <= i < |waits| ==> Retries(tries[i], interruptions[i])
    ensures r.Ok? ==> calls == |waits| + 1 && tries[calls - 1] == Succeeds(r.value)
    ensures r.Err? && r.error.ExtractionFailed? ==>
              && calls == |waits| + 1 && r.error.call == calls - 1 && tries[calls - 1].Fails?
              && (retrySafe && tries[calls - 1].retryable ==> calls - 1 >= retries)
    ensures r.Err? && r.error == ContextEnded ==>
              calls == |waits| < |interruptions| && interruptions[calls] == BeforeCall
    ensures r.Err? && (r.error == EventFailed || r.error == WaitFailed) ==>
              calls == |waits| + 1 && interruptions[calls - 1] == if r.error == EventFailed then InEvent else InWait
  {
    calls, waits := 0, [];
    if retries <= 0 || !retrySafe {
      calls := 1;
      r := if tries[0].Succeeds? then Ok(tries[0].extraction) else Err(ExtractionFailed(0));
      return;
    }
    var retry := 0;
    while true
      invariant 0 <= retry <= retries
      invariant calls == retry == |waits|
      invariant forall i :: 0 <= i < retry ==> waits[i] as int == Delay(base, maximum, i + 1)
      invariant forall i :: 0 <= i < retry ==> Retries(tries[i], interruptions[i])
      decreases retries - retry
    {
      if interruptions[retry] == BeforeCall {
        return Err(ContextEnded), calls, waits;
      }
      calls := calls + 1;
      if tries[retry].Succeeds? {
        return Ok(tries[retry].extraction), calls, waits;
      }
      if retry >= retries || !tries[retry].retryable {
        return Err(ExtractionFailed(retry)), calls, waits;
      }
      if interruptions[retry] == InEvent {
        return Err(EventFailed), calls, waits;
      }
      var delay, doublings := RetryDelay(base, maximum, retry + 1);
      if interruptions[retry] == InWait {
        return Err(WaitFailed), calls, waits;
      }
      waits := waits + [delay];
      retry := retry + 1;
    }
  }
}
