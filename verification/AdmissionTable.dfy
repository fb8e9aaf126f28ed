/**
 When an attempt is admitted, and otherwise why not: flat tables over samples, callback panics,
 cancellation reads and limits, in which no intermediate state and no gate function appears.
 */
module AdmissionTable {
  import opened Options
  import opened Time
  import opened Accounting
  import opened Callbacks
  import opened FlowModel
  import opened FlowDeadlines
  import opened FailureTable

  /** At the sample `now` no limit has been reached and an attempt is left. */
  predicate AllOpen(cfg: Config, b: Budget, now: Instant) {
    && b.attempts < b.limits.maxAttempts
    && Below(b.limits.operationBudget, b.operationElapsed)
    && Below(b.limits.totalBudget, now.at - b.startedAt.at)
    && Below(cfg.flowTimeout, now.at - b.startedAt.at)
  }

  /** The first gate that is closed at the sample `now`. */
  function GateRow(cfg: Config, b: Budget, now: Instant, cancelled: bool): Option<Reason> {
    if !Below(cfg.flowTimeout, now.at - b.startedAt.at) then Some(TimedOut(FlowScope))
    else if cancelled then Some(Cancelled(BeforeAttempts))
    else if b.attempts >= b.limits.maxAttempts then Some(Exhausted(AttemptLimit))
    else if !Below(b.limits.operationBudget, b.operationElapsed) then Some(Exhausted(OperationLimit))
    else if !Below(b.limits.totalBudget, now.at - b.startedAt.at) then Some(Exhausted(TotalLimit))
    else None
  }

  // --- Announcing ----------------------------------------------------------------------------------

  predicate Announceable(cfg: Config, f: Flow, r: BeforeInputs) {
    && Follows(f.budget.sampledAt, r.entry.now) && Follows(r.entry.now, r.after.now)
    && (forall i :: 0 <= i < |r.observers| ==> r.observers[i].Returns?)
    && !r.entry.cancelled && !r.after.cancelled && !r.cancelledAgain
    && AllOpen(cfg, f.budget, r.entry.now) && AllOpen(cfg, f.budget, r.after.now)
  }

  function BeforeRows(cfg: Config, f: Flow, r: BeforeInputs): Option<Reason> {
    if !Follows(f.budget.sampledAt, r.entry.now) then CLOCK_ROW
    else if GateRow(cfg, f.budget, r.entry.now, r.entry.cancelled).Some?
    then GateRow(cfg, f.budget, r.entry.now, r.entry.cancelled)
    else if FirstPanic(r.observers).Some? then PanicRow(r.observers, BeforeAttemptPhase)
    else if !Follows(r.entry.now, r.after.now) then CLOCK_ROW
    else if r.after.cancelled then Some(Cancelled(BeforeAttempts))
    else GateRow(cfg, f.budget, r.after.now, r.cancelledAgain)
  }

  /** The last sample that was accepted. */
  function BeforeSample(cfg: Config, f: Flow, r: BeforeInputs): Instant {
    if !Follows(f.budget.sampledAt, r.entry.now) then f.budget.sampledAt
    else if GateRow(cfg, f.budget, r.entry.now, r.entry.cancelled).Some? || !Follows(r.entry.now, r.after.now)
    then r.entry.now
    else r.after.now
  }

  /** The observers were called, with the next attempt announced. */
  predicate Announced(cfg: Config, f: Flow, r: BeforeInputs) {
    && Follows(f.budget.sampledAt, r.entry.now)
    && GateRow(cfg, f.budget, r.entry.now, r.entry.cancelled).None?
  }

  lemma AnnounceableIsNoRow(cfg: Config, f: Flow, r: BeforeInputs)
    ensures BeforeRows(cfg, f, r).None? <==> Announceable(cfg, f, r)
  {
  }

  /** The accounting of a context that was taken while nothing ran, at the sample `now`. */
  predicate TakenAt(c: Context, b: Budget, now: Instant) {
    && c.attempts == b.attempts && c.limits == b.limits
    && c.operationElapsed == b.operationElapsed && c.lastAttemptElapsed == b.lastAttemptElapsed
    && c.totalElapsed == now.at - b.startedAt.at
  }

  /** What every stop before the attempt reports: the last failure, and the time of the last accepted sample. */
  predicate StoppedBefore(f: Flow, g: Flow, e: RetryError, now: Instant) {
    && g.budget == f.budget.(sampledAt := now)
    && e.lastFailure == f.lastFailure && TakenAt(e.context, f.budget, now)
  }

  lemma GateDecides<T>(cfg: Config, f: Flow, cancelled: bool, value: T)
    requires Inv(f.budget)
    ensures match Gates(cfg, f, cancelled, BeforeAttempts, 0, value)
            case Go(g, v) => GateRow(cfg, f.budget, f.budget.sampledAt, cancelled).None? && g == f && v == value
            case Stop(g, e) =>
              && GateRow(cfg, f.budget, f.budget.sampledAt, cancelled) == Some(e.reason)
              && Cleared(f, g, e)
  {
  }

  /** A stop at the last accepted sample that no longer names an attempt. */
  predicate Cleared(f: Flow, g: Flow, e: RetryError) {
    && StoppedBefore(f, g, e, f.budget.sampledAt) && g.trace == f.trace
    && e.context.currentAttempt.None? && e.context.hardTimeout.None?
    && e.context.nextDelay == f.nextDelay && e.context.hint == f.hint
  }

  lemma ClockClears(f: Flow)
    requires Inv(f.budget)
    ensures var s: Step<()> := ClockStop(f); Cleared(f, s.flow, s.error) && Some(s.error.reason) == CLOCK_ROW
  {
  }

  /** What stops at the entry gates: nothing was announced, and what the last retry published is still reported. */
  lemma EntryDecides(cfg: Config, f: Flow, r: BeforeInputs)
    requires Inv(f.budget) && !Announced(cfg, f, r)
    ensures var s := BeforeAttemptStep(cfg, f, r);
            && s.Stop? && BeforeRows(cfg, f, r) == Some(s.error.reason)
            && StoppedBefore(f, s.flow, s.error, BeforeSample(cfg, f, r)) && s.flow.trace == f.trace
            && s.error.context.currentAttempt.None? && s.error.context.nextDelay == f.nextDelay
  {
    if Follows(f.budget.sampledAt, r.entry.now) {
      SampledInv(f.budget, r.entry.now);
      GateDecides(cfg, At(f, r.entry.now), r.entry.cancelled, ());
    } else {
      ClockClears(f);
    }
  }

  /** The same table from the announcement on, for a flow whose last sample is the entry's. */
  function NotifyRows(cfg: Config, b: Budget, r: BeforeInputs): Option<Reason> {
    if FirstPanic(r.observers).Some? then PanicRow(r.observers, BeforeAttemptPhase)
    else if !Follows(b.sampledAt, r.after.now) then CLOCK_ROW
    else if r.after.cancelled then Some(Cancelled(BeforeAttempts))
    else GateRow(cfg, b, r.after.now, r.cancelledAgain)
  }

  lemma PanicDecides(f: Flow, callback: CallbackFailure, now: Instant)
    requires Inv(f.budget)
    ensures var s: Step<Instant> := CallbackStop(f, callback, Snapshot(f), now);
            && s.Stop? && s.error.reason == CallbackFailed(callback)
            && StoppedBefore(f, s.flow, s.error, if Follows(f.budget.sampledAt, now) then now else f.budget.sampledAt)
            && s.error.context.currentAttempt == f.currentAttempt && s.error.context.nextDelay == f.nextDelay
            && s.error.context.hint == f.hint && s.error.context.hardTimeout == f.hardTimeout
  {
  }

  lemma NotifyDecides(cfg: Config, f: Flow, r: BeforeInputs)
    requires Inv(f.budget)
    ensures match NotifyBefore(cfg, f, r)
            case Stop(g, e) =>
              && NotifyRows(cfg, f.budget, r) == Some(e.reason)
              && StoppedBefore(f, g, e, if Follows(f.budget.sampledAt, r.after.now) then r.after.now
                                        else f.budget.sampledAt)
              && e.context.currentAttempt == (if e.reason.CallbackFailed? then f.currentAttempt else None)
              && e.context.nextDelay == f.nextDelay && e.context.hint == f.hint
            case Go(g, now) =>
              && NotifyRows(cfg, f.budget, r).None? && now == r.after.now
              && g == At(f, now).(trace := g.trace)
  {
    var logged := Log(f, BeforeAttempt(Invoked(r.observers), Snapshot(f)));
    if FirstPanic(r.observers).Some? {
      PanicDecides(logged, CallbackFailure(FirstPanic(r.observers).value, BeforeAttemptPhase), r.after.now);
      assert Snapshot(logged) == Snapshot(f);
    } else if !Follows(f.budget.sampledAt, r.after.now) {
      ClockClears(logged);
    } else {
      SampledInv(f.budget, r.after.now);
      GateDecides(cfg, At(logged, r.after.now), r.cancelledAgain, r.after.now);
    }
  }

  lemma NotificationDecides(cfg: Config, f: Flow, r: BeforeInputs)
    requires Inv(f.budget) && Announced(cfg, f, r)
    ensures var s, ordinal := BeforeAttemptStep(cfg, f, r), Some(f.budget.attempts + 1);
            match s
            case Stop(g, e) =>
              && BeforeRows(cfg, f, r) == Some(e.reason)
              && StoppedBefore(f, g, e, BeforeSample(cfg, f, r))
              && e.context.currentAttempt == (if e.reason.CallbackFailed? then ordinal else None)
              && e.context.nextDelay.None? && e.context.hint.None?
            case Go(g, now) =>
              && BeforeRows(cfg, f, r).None? && now == r.after.now
              && g == f.(budget := f.budget.(sampledAt := now), currentAttempt := ordinal, hardTimeout := None,
                         nextDelay := None, hint := None, trace := g.trace)
  {
    SampledInv(f.budget, r.entry.now);
    var g := At(f, r.entry.now);
    GateDecides(cfg, g, r.entry.cancelled, ());
    NotifyDecides(cfg, EnterAttempt(g), r);
    assert BeforeAttemptStep(cfg, f, r) == NotifyBefore(cfg, EnterAttempt(g), r);
    assert BeforeRows(cfg, f, r) == NotifyRows(cfg, g.budget, r);
  }

  /** The announcement ends exactly as the table says. */
  lemma BeforeDecides(cfg: Config, f: Flow, r: BeforeInputs)
    requires Inv(f.budget)
    ensures match BeforeAttemptStep(cfg, f, r)
            case Go(g, now) => Announceable(cfg, f, r) && now == r.after.now && g.budget == f.budget.(sampledAt := now)
            case Stop(g, e) =>
              && !Announceable(cfg, f, r) && BeforeRows(cfg, f, r) == Some(e.reason)
              && StoppedBefore(f, g, e, BeforeSample(cfg, f, r))
  {
    AnnounceableIsNoRow(cfg, f, r);
    if Announced(cfg, f, r) {
      NotificationDecides(cfg, f, r);
    } else {
      EntryDecides(cfg, f, r);
    }
  }

  // --- Preparing the deadline -----------------------------------------------------------------------

  /** The earlier of the attempt's and the flow's deadline, in unbounded time; ties are the attempt's. */
  function Earliest(cfg: Config, b: Budget, now: Instant): Option<(int, Scope)> {
    match (cfg.attemptTimeout, cfg.flowTimeout)
    case (None, None) => None
    case (Some(a), None) => Some((now.at + a, AttemptScope))
    case (None, Some(t)) => Some((b.startedAt.at + t, FlowScope))
    case (Some(a), Some(t)) =>
      if now.at + a <= b.startedAt.at + t then Some((now.at + a, AttemptScope))
          else Some((b.startedAt.at + t, FlowScope))
  }

  predicate Representable(cfg: Config, b: Budget, now: Instant) {
    Earliest(cfg, b, now).Some? ==> Earliest(cfg, b, now).value.0 <= MAX_DURATION
  }

  /** The plan with that deadline, for a sample before the flow's own. */
  function PlanAt(cfg: Config, b: Budget, now: Instant): Option<Timeout> {
    match Earliest(cfg, b, now)
    case None => None
    case Some((due, scope)) =>
      if now.at <= due <= MAX_DURATION then Some(Timeout(Instant(now.domain, due), due - now.at, scope)) else None
  }

  /** Preparing fixes the earlier deadline, and fails exactly when that is not representable. */
  lemma PrepareDecides(cfg: Config, f: Flow)
    requires Inv(f.budget) && Below(cfg.flowTimeout, f.budget.sampledAt.at - f.budget.startedAt.at)
    ensures var now, plan := f.budget.sampledAt, PlanAt(cfg, f.budget, f.budget.sampledAt);
            match PrepareAttemptStep(cfg, f, now)
            case Go(g, timeout) =>
              && Representable(cfg, f.budget, now) && timeout == plan
              && (plan.Some? <==> Timed(cfg))
              && g == f.(hardTimeout := if plan.Some? then Some(plan.value.duration) else None)
            case Stop(g, e) => !Representable(cfg, f.budget, now) && Some(e.reason) == CLOCK_ROW && Cleared(f, g, e)
  {
  }

  // --- Committing ----------------------------------------------------------------------------------

  /** The attempt may start at this boundary, with `since` the last sample accepted before. */
  predicate Committable(cfg: Config, b: Budget, since: Instant, plan: Option<Timeout>, at: Boundary) {
    && Follows(since, at.now) && !at.cancelled && AllOpen(cfg, b, at.now)
    && (plan.Some? ==> at.now.domain == plan.value.deadline.domain && at.now.at < plan.value.deadline.at)
  }

  function CommitRows(cfg: Config, b: Budget, since: Instant, plan: Option<Timeout>, at: Boundary): Option<Reason> {
    if !Follows(since, at.now) then CLOCK_ROW
    else if plan.Some? && at.now.domain != plan.value.deadline.domain then CLOCK_ROW
    else if plan.Some? && at.now.at >= plan.value.deadline.at then Some(TimedOut(plan.value.scope))
    else GateRow(cfg, b, at.now, at.cancelled)
  }

  lemma CommittableIsNoRow(cfg: Config, b: Budget, since: Instant, plan: Option<Timeout>, at: Boundary)
    ensures CommitRows(cfg, b, since, plan, at).None? <==> Committable(cfg, b, since, plan, at)
  {
  }

  /** Committing, with or without a plan, admits exactly when the table has no row, and at this very sample. */
  lemma CommitDecides(cfg: Config, f: Flow, plan: Option<Timeout>, at: Boundary)
    requires Inv(f.budget)
    ensures var s, since := CommitStep(cfg, f, plan, at), f.budget.sampledAt;
            match s
            case Go(g, _) =>
              && Committable(cfg, f.budget, since, plan, at)
              && g == f.(budget := f.budget.(attempts := f.budget.attempts + 1, sampledAt := at.now,
                                             active := Some(at.now)),
                         trace := f.trace + [Admitted(f.budget.attempts + 1, at.now, f.budget.operationElapsed)])
            case Stop(g, e) =>
              && !Committable(cfg, f.budget, since, plan, at)
              && CommitRows(cfg, f.budget, since, plan, at) == Some(e.reason)
              && StoppedBefore(f, g, e, if Follows(since, at.now) then at.now else since)
              && g.trace == f.trace && e.context.currentAttempt.None? && e.context.hardTimeout.None?
  {
    CommittableIsNoRow(cfg, f.budget, f.budget.sampledAt, plan, at);
    if !Follows(f.budget.sampledAt, at.now) {
      ClockClears(f);
    } else {
      var g := At(f, at.now);
      SampledInv(f.budget, at.now);
      ClockClears(g);
      GateDecides(cfg, g, at.cancelled, ());
    }
  }
}
