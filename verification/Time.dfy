/**
 Durations and monotonic instants.

 A duration counts nanoseconds and is bounded by the largest representable
 `Duration`; an instant is a clock domain together with the duration since that
 domain's origin. Only the contract the retry engine relies on is modelled.
 */
module Time {
  import opened Options

  /** `u64::MAX` seconds and 999_999_999 nanoseconds. */
  const MAX_DURATION: nat := 18446744073709551615999999999

  type Duration = n: nat | n <= MAX_DURATION

  datatype Instant = Instant(domain: nat, at: Duration)

  datatype TimeError = DomainMismatch | Regression | Overflow

  function Min(a: Duration, b: Duration): Duration { if a <= b then a else b }

  function Max(a: Duration, b: Duration): Duration { if a <= b then b else a }

  function SaturatingAdd(a: Duration, b: Duration): Duration {
    if a + b <= MAX_DURATION then a + b else MAX_DURATION
  }

  function SaturatingSub(a: Duration, b: Duration): Duration {
    if a <= b then 0 else a - b
  }

  predicate Follows(earlier: Instant, later: Instant) { earlier.domain == later.domain && earlier.at <= later.at }

  /** Elapsed time between two samples of one domain that do not regress. */
  function DurationSince(later: Instant, earlier: Instant): (r: Result<Duration, TimeError>)
    ensures r.Ok? <==> later.domain == earlier.domain && earlier.at <= later.at
  {
    if later.domain != earlier.domain then Err(DomainMismatch)
    else if later.at < earlier.at then Err(Regression)
    else Ok(later.at - earlier.at)
  }

  function CheckedAdd(i: Instant, d: Duration): (r: Result<Instant, TimeError>)
    ensures r.Ok? <==> i.at + d <= MAX_DURATION
  {
    if i.at + d <= MAX_DURATION then Ok(Instant(i.domain, i.at + d)) else Err(Overflow)
  }

  /** Whether `now` is at or beyond a deadline of its own domain. */
  function DeadlineReached(now: Instant, deadline: Instant): (r: Result<bool, TimeError>)
    ensures r.Ok? <==> now.domain == deadline.domain
  {
    if deadline.domain != now.domain then Err(DomainMismatch) else Ok(now.at >= deadline.at)
  }
}
