/**
 Attempt and elapsed-time accounting driven by explicit clock samples.

 `Budget` is the value of one `RetryBudgetState`. Its `completed` list is history
 that the program does not store: the interval of every finished attempt.
 */
module Accounting {
  import opened Options
  import opened Time

  const MAX_ATTEMPTS: nat := 0xFFFF_FFFF

  datatype Limits = Limits(maxAttempts: nat, operationBudget: Option<Duration>, totalBudget: Option<Duration>)

  ghost predicate ValidLimits(l: Limits) { 1 <= l.maxAttempts <= MAX_ATTEMPTS }

  datatype LimitKind = AttemptLimit | OperationLimit | TotalLimit

  datatype Interval = Interval(from: Duration, to: Duration)

  datatype Budget = Budget(
    limits: Limits,
    startedAt: Instant,
    sampledAt: Instant,
    attempts: nat,
    operationElapsed: Duration,
    lastAttemptElapsed: Duration,
    active: Option<Instant>,
    completed: seq<Interval>)

  datatype BudgetSnapshot =
    BudgetSnapshot(attempts: nat, operationElapsed: Duration, totalElapsed: Duration, attemptElapsed: Duration)

  function Fresh(limits: Limits, startedAt: Instant): Budget {
    Budget(limits, startedAt, startedAt, 0, 0, 0, None, [])
  }

  /** A sample the accounting accepts: same domain, not before the last accepted one. */
  predicate Coherent(b: Budget, now: Instant) {
    now.domain == b.sampledAt.domain && b.sampledAt.at <= now.at
  }

  function TotalElapsed(b: Budget): Duration { SaturatingSub(b.sampledAt.at, b.startedAt.at) }

  function Sampled(b: Budget, now: Instant): Budget { b.(sampledAt := now) }

  predicate Below(limit: Option<Duration>, value: int) { limit.Some? ==> value < limit.value }

  /** First limit that forbids an attempt `delay` after the last accepted sample. */
  function LimitAfter(b: Budget, delay: Duration): Option<LimitKind> {
    if b.attempts >= b.limits.maxAttempts then Some(AttemptLimit)
    else if b.limits.operationBudget.Some? && b.operationElapsed >= b.limits.operationBudget.value
    then Some(OperationLimit)
    else if b.limits.totalBudget.Some? && SaturatingAdd(TotalElapsed(b), delay) >= b.limits.totalBudget.value
    then Some(TotalLimit)
    else None
  }

  function Begun(b: Budget, now: Instant): Budget {
    b.(attempts := b.attempts + 1, sampledAt := now, active := Some(now))
  }

  function Finished(b: Budget, now: Instant): Budget
    requires b.active.Some?
  {
    var elapsed := SaturatingSub(now.at, b.active.value.at);
    b.(sampledAt := now,
       lastAttemptElapsed := elapsed,
       operationElapsed := SaturatingAdd(b.operationElapsed, elapsed),
       active := None,
       completed := b.completed + [Interval(b.active.value.at, now.at)])
  }

  // --- Conservation of time ------------------------------------------------------------

  function TotalTime(s: seq<Interval>): int {
    if s == [] then 0 else TotalTime(s[..|s| - 1]) + (s[|s| - 1].to - s[|s| - 1].from)
  }

  /** Well-formed intervals in order, pairwise disjoint, inside [low, high]. */
  ghost predicate DisjointWithin(s: seq<Interval>, low: int, high: int) {
    && low <= high
    && (forall i :: 0 <= i < |s| ==> low <= s[i].from <= s[i].to <= high)
    && (forall i, j :: 0 <= i < j < |s| ==> s[i].to <= s[j].from)
  }

  lemma {:induction false} DisjointTimeFits(s: seq<Interval>, low: int, high: int)
    requires DisjointWithin(s, low, high)
    ensures 0 <= TotalTime(s) <= high - low
  {
    if s != [] {
      DisjointTimeFits(s[..|s| - 1], low, s[|s| - 1].from);
    }
  }

  /** The invariant of every reachable accounting state. */
  ghost predicate Inv(b: Budget) {
    && ValidLimits(b.limits)
    && b.startedAt.domain == b.sampledAt.domain
    && b.startedAt.at <= b.sampledAt.at
    && b.attempts <= b.limits.maxAttempts
    && b.attempts == |b.completed| + (if b.active.Some? then 1 else 0)
    && DisjointWithin(b.completed, b.startedAt.at, if b.active.Some? then b.active.value.at else b.sampledAt.at)
    && (b.active.Some? ==> b.active.value.domain == b.sampledAt.domain && b.active.value.at <= b.sampledAt.at)
    && b.operationElapsed == TotalTime(b.completed)
    && b.lastAttemptElapsed == (if b.completed == [] then 0
                                else b.completed[|b.completed| - 1].to - b.completed[|b.completed| - 1].from)
  }

  /**
   Exact conservation: the operation time is the sum of the disjoint attempt intervals, and
   together with the running attempt it never exceeds the total elapsed time.
   */
  lemma TimeConserved(b: Budget)
    requires Inv(b)
    ensures b.operationElapsed == TotalTime(b.completed)
    ensures DisjointWithin(b.completed, b.startedAt.at, b.sampledAt.at)
    ensures b.operationElapsed + (if b.active.Some? then b.sampledAt.at - b.active.value.at else 0) <= TotalElapsed(b)
    ensures b.lastAttemptElapsed <= b.operationElapsed
  {
    DisjointTimeFits(b.completed, b.startedAt.at, if b.active.Some? then b.active.value.at else b.sampledAt.at);
    if b.completed != [] {
      DisjointTimeFits(b.completed[..|b.completed| - 1], b.startedAt.at, b.sampledAt.at);
    }
  }

  lemma FreshInv(limits: Limits, startedAt: Instant)
    requires ValidLimits(limits)
    ensures Inv(Fresh(limits, startedAt))
  {
  }

  lemma SampledInv(b: Budget, now: Instant)
    requires Inv(b) && Coherent(b, now)
    ensures Inv(Sampled(b, now))
  {
  }

  lemma BegunInv(b: Budget, now: Instant)
    requires Inv(b) && b.active.None? && Coherent(b, now) && b.attempts < b.limits.maxAttempts
    ensures Inv(Begun(b, now))
  {
  }

  /** Finishing keeps the invariant, and the addition to the operation time is exact: nothing saturates. */
  lemma FinishedInv(b: Budget, now: Instant)
    requires Inv(b) && b.active.Some? && Coherent(b, now)
    ensures Inv(Finished(b, now))
    ensures Finished(b, now).operationElapsed == b.operationElapsed + (now.at - b.active.value.at)
  {
    var c := Finished(b, now);
    assert c.completed[..|c.completed| - 1] == b.completed;
    DisjointTimeFits(b.completed, b.startedAt.at, b.active.value.at);
  }

  /** The attempt's own time, up to the sample that finishes it, is what is added. */
  lemma FinishedExact(b: Budget, now: Instant)
    requires Inv(b) && b.active.Some? && Coherent(b, now)
    ensures var c, spent := Finished(b, now), now.at - b.active.value.at;
            && c.active.None? && c.sampledAt == now && c.attempts == b.attempts
            && c.lastAttemptElapsed == spent && c.operationElapsed == b.operationElapsed + spent
            && c.completed == b.completed + [Interval(b.active.value.at, now.at)]
            && c.limits == b.limits && c.startedAt == b.startedAt
  {
    FinishedInv(b, now);
  }

  // --- The mutable accounting state -----------------------------------------------------

  class RetryBudgetState {
    const limits: Limits
    const startedAt: Instant
    var sampledAt: Instant
    var attempts: nat
    var operationElapsed: Duration
    var lastAttemptElapsed: Duration
    var attemptStartedAt: Option<Instant>
    ghost var completed: seq<Interval>

    ghost function Value(): Budget
      reads this
    {
      Budget(limits, startedAt, sampledAt, attempts, operationElapsed, lastAttemptElapsed, attemptStartedAt, completed)
    }

    ghost predicate Valid()
      reads this
    {
      Inv(Value())
    }

    constructor (startedAt: Instant, limits: Limits)
      requires ValidLimits(limits)
      ensures Valid() && Value() == Fresh(limits, startedAt)
    {
      this.limits := limits;
      this.startedAt := startedAt;
      sampledAt := startedAt;
      attempts := 0;
      operationElapsed := 0;
      lastAttemptElapsed := 0;
      attemptStartedAt := None;
      completed := [];
      new;
      FreshInv(limits, startedAt);
    }

    predicate HasActiveAttempt()
      reads this
    {
      attemptStartedAt.Some?
    }

    /** Observes a sample without committing it. */
    method SnapshotAt(now: Instant) returns (r: Result<BudgetSnapshot, TimeError>)
      requires Valid()
      ensures r.Ok? <==> Coherent(Value(), now)
      ensures r.Ok? ==>
                r.value ==
                BudgetSnapshot(attempts, operationElapsed, TotalElapsed(Sampled(Value(), now)), lastAttemptElapsed)
    {
      var sinceSample := DurationSince(now, sampledAt);
      if sinceSample.Err? {
        return Err(sinceSample.error);
      }
      var sinceStart := DurationSince(now, startedAt);
      assert sinceStart.Ok?;  // the start never lies after an accepted sample
      return Ok(BudgetSnapshot(attempts, operationElapsed, sinceStart.value, lastAttemptElapsed));
    }

    /** The accounting at the last accepted sample, which is always coherent. */
    method CurrentSnapshot() returns (s: BudgetSnapshot)
      requires Valid()
      ensures s == BudgetSnapshot(attempts, operationElapsed, TotalElapsed(Value()), lastAttemptElapsed)
    {
      var r := SnapshotAt(sampledAt);
      s := r.value;
    }

    method RetryLimit(delay: Duration) returns (limit: Option<LimitKind>)
      requires Valid()
      ensures limit == LimitAfter(Value(), delay)
    {
      if attempts == limits.maxAttempts {
        return Some(AttemptLimit);
      }
      if limits.operationBudget.Some? && operationElapsed >= limits.operationBudget.value {
        return Some(OperationLimit);
      }
      if limits.totalBudget.Some? {
        var s := CurrentSnapshot();
        if SaturatingAdd(s.totalElapsed, delay) >= limits.totalBudget.value {
          return Some(TotalLimit);
        }
      }
      return None;
    }

    /** Commits a coherent sample; an incoherent one changes nothing. */
    method Refresh(now: Instant) returns (r: Result<(), TimeError>)
      requires Valid()
      modifies this
      ensures Valid()
      ensures r.Ok? <==> Coherent(old(Value()), now)
      ensures Value() == if r.Ok? then Sampled(old(Value()), now) else old(Value())
    {
      var s := SnapshotAt(now);
      if s.Err? {
        return Err(s.error);
      }
      SampledInv(Value(), now);
      sampledAt := now;
      return Ok(());
    }

    method BeginAttempt(now: Instant)
      requires Valid() && attemptStartedAt.None? && attempts < limits.maxAttempts && Coherent(Value(), now)
      modifies this
      ensures Valid()
      ensures Value() == Begun(old(Value()), now)
    {
      BegunInv(Value(), now);
      attempts := attempts + 1;
      sampledAt := now;
      attemptStartedAt := Some(now);
    }

    /** Completes the active attempt; an incoherent sample keeps it active and changes nothing. */
    method FinishAttempt(now: Instant) returns (r: Result<(), TimeError>)
      requires Valid() && attemptStartedAt.Some?
      modifies this
      ensures Valid()
      ensures r.Ok? <==> Coherent(old(Value()), now)
      ensures Value() == if r.Ok? then Finished(old(Value()), now) else old(Value())
      ensures r.Ok? ==>
                var spent := now.at - old(attemptStartedAt).value.at;
                && attemptStartedAt.None? && sampledAt == now && attempts == old(attempts)
                && lastAttemptElapsed == spent && operationElapsed == old(operationElapsed) + spent
    {
      var s := SnapshotAt(now);
      if s.Err? {
        return Err(s.error);
      }
      var elapsed := DurationSince(now, attemptStartedAt.value);
      assert elapsed.Ok?;  // nor does the start of the active attempt
      FinishedInv(Value(), now);
      completed := completed + [Interval(attemptStartedAt.value.at, now.at)];
      sampledAt := now;
      lastAttemptElapsed := elapsed.value;
      operationElapsed := SaturatingAdd(operationElapsed, elapsed.value);
      attemptStartedAt := None;
      return Ok(());
    }
  }
}
