/**
 The flat priority table of recording a failure.

 The table speaks about the environment's responses and the state at entry only: samples are
 compared directly, elapsed times are differences of samples, and no intermediate state appears.
 */
module FailureTable {
  import opened Options
  import opened Time
  import opened Backoff
  import opened Accounting
  import opened Callbacks
  import opened FlowModel

  function Since(start: Instant, now: Instant): Duration { SaturatingSub(now.at, start.at) }

  predicate Expired(cfg: Config, start: Instant, now: Instant) {
    cfg.flowTimeout.Some? && Since(start, now) >= cfg.flowTimeout.value
  }

  /** Operation time including the attempt that just failed. */
  function OperationTime(b: Budget, completion: Instant): Duration
    requires b.active.Some?
  {
    SaturatingAdd(b.operationElapsed, Since(b.active.value, completion))
  }

  function LimitAt(b: Budget, completion: Instant, now: Instant, delay: Duration): Option<LimitKind>
    requires b.active.Some?
  {
    if b.attempts >= b.limits.maxAttempts then Some(AttemptLimit)
    else if b.limits.operationBudget.Some? && OperationTime(b, completion) >= b.limits.operationBudget.value
    then Some(OperationLimit)
    else if b.limits.totalBudget.Some? && SaturatingAdd(Since(b.startedAt, now), delay) >= b.limits.totalBudget.value
    then Some(TotalLimit)
    else None
  }

  /** The retry decision in force: a rule's own, or an implied retry when all rules delegate. */
  function Effective(r: FailureInputs): Decision {
    var d := Judge(r.rules, 0).decision;
    if d.UseDefault? then Retry else d
  }

  function RetryDelay(cfg: Config, f: Flow, r: FailureInputs): Duration {
    StepAt(cfg.policy, cfg.arithmetic, NextIndex(f.retryIndex), RequestOf(Effective(r)), r.draws).effective
  }

  const CLOCK_ROW: Option<Reason> := Some(InfrastructureFailed(ClockFailed))

  function PanicRow(observers: seq<CallbackOutcome>, phase: CallbackPhase): Option<Reason>
    requires FirstPanic(observers).Some?
  {
    Some(CallbackFailed(CallbackFailure(FirstPanic(observers).value, phase)))
  }

  /** Rows up to the decision whether to retry at all; None passes on to the scheduling rows. */
  function DecisionRows(cfg: Config, f: Flow, failure: Failure, r: FailureInputs): Option<Reason> {
    var decision := Judge(r.rules, 0);
    var delegated := decision.decision.UseDefault?;
    if !Follows(f.budget.sampledAt, r.completion) then CLOCK_ROW
    else if FirstPanic(r.failedObservers).Some? then PanicRow(r.failedObservers, AttemptFailedPhase)
    else if !Follows(r.completion, r.afterFailed.now) then CLOCK_ROW
    else if r.afterFailed.cancelled then Some(Cancelled(DuringBackoff))
    else if decision.panic.Some? then Some(CallbackFailed(CallbackFailure(decision.panic.value, RulePhase)))
    else if !Follows(r.afterFailed.now, r.afterRules.now) then CLOCK_ROW
    else if r.afterRules.cancelled then Some(Cancelled(DuringBackoff))
    else if delegated && failure.AttemptTimedOut? then Some(TimedOut(failure.scope))
    else if delegated && failure.AttemptPanicked? then Some(Aborted)
    else if delegated && cfg.fallback.FallbackAbort? then Some(Aborted)
    else if decision.decision.Abort? then Some(Aborted)
    else None
  }

  /** Rows for a retry that is wanted; None means it is planned. */
  function SchedulingRows(cfg: Config, f: Flow, r: FailureInputs): Option<Reason>
    requires f.budget.active.Some?
  {
    var b, start, delay := f.budget, f.budget.startedAt, RetryDelay(cfg, f, r);
    if !Follows(r.afterRules.now, r.afterBackoff) then CLOCK_ROW
    else if Expired(cfg, start, r.afterBackoff) then Some(TimedOut(FlowScope))
    else if LimitAt(b, r.completion, r.afterBackoff, delay).Some?
    then Some(Exhausted(LimitAt(b, r.completion, r.afterBackoff, delay).value))
    else if FirstPanic(r.scheduledObservers).Some? then PanicRow(r.scheduledObservers, ScheduledPhase)
    else if !Follows(r.afterBackoff, r.afterScheduled.now) then CLOCK_ROW
    else if r.afterScheduled.cancelled then Some(Cancelled(DuringBackoff))
    else if Expired(cfg, start, r.afterScheduled.now) then Some(TimedOut(FlowScope))
    else if r.cancelledAgain then Some(Cancelled(DuringBackoff))
    else if LimitAt(b, r.completion, r.afterScheduled.now, delay).Some? then
      Some(Exhausted(LimitAt(b, r.completion, r.afterScheduled.now, delay).value))
    else if BackoffDeadline(cfg, start, r.afterScheduled.now, delay).Err? then CLOCK_ROW
    else None
  }

  /** The first row that applies names the terminal reason; None means a retry is planned. */
  function Verdict(cfg: Config, f: Flow, failure: Failure, r: FailureInputs): Option<Reason>
    requires f.budget.active.Some?
  {
    if DecisionRows(cfg, f, failure, r).Some? then DecisionRows(cfg, f, failure, r) else SchedulingRows(cfg, f, r)
  }

  /** The last sample that is accepted before the decision rows end the flow. */
  function DecisionSample(f: Flow, r: FailureInputs): Instant {
    if !Follows(f.budget.sampledAt, r.completion) then f.budget.sampledAt
    else if !Follows(r.completion, r.afterFailed.now) then r.completion
    else if FirstPanic(r.failedObservers).Some? || r.afterFailed.cancelled then r.afterFailed.now
    else if !Follows(r.afterFailed.now, r.afterRules.now) then r.afterFailed.now
    else r.afterRules.now
  }

  /** Likewise for the scheduling rows. */
  function SchedulingSample(cfg: Config, f: Flow, r: FailureInputs): Instant
    requires f.budget.active.Some?
  {
    if !Follows(r.afterRules.now, r.afterBackoff) then r.afterRules.now
    else if Expired(cfg, f.budget.startedAt, r.afterBackoff)
            || LimitAt(f.budget, r.completion, r.afterBackoff, RetryDelay(cfg, f, r)).Some?
            || !Follows(r.afterBackoff, r.afterScheduled.now)
    then r.afterBackoff
    else r.afterScheduled.now
  }

  /**
   What a terminal error reports: the failure, the time of the last accepted sample, the published
   delay, and the attempt only if one of its callbacks panicked.
   */
  predicate Reports(f: Flow, failure: Failure, e: RetryError, sample: Instant, nextDelay: Option<Duration>) {
    && e.lastFailure == Some(failure)
    && e.context.attempts == f.budget.attempts && e.context.totalElapsed == Since(f.budget.startedAt, sample)
    && e.context.currentAttempt == (if e.reason.CallbackFailed? then f.currentAttempt else None)
    && e.context.nextDelay == nextDelay
  }

  // --- The recording agrees with the table ------------------------------------------------------

  /** The flow that reaches scheduling, in terms of the entry state. */
  predicate Decided(f: Flow, h: Flow, failure: Failure, r: FailureInputs)
    requires f.budget.active.Some?
  {
    && h.budget == Sampled(Finished(f.budget, r.completion), r.afterRules.now)
    && h.lastFailure == Some(failure) && h.retryIndex == f.retryIndex && h.currentAttempt == f.currentAttempt
  }

  lemma DecisionStage(cfg: Config, f: Flow, failure: Failure, r: FailureInputs)
    requires f.budget.active.Some? && Coherent(f.budget, r.completion)
    ensures match ObserveFailure(Failed(f, failure, r.completion), failure, r)
            case Stop(_, e) =>
              DecisionRows(cfg, f, failure, r) == Some(e.reason)
                  && Reports(f, failure, e, DecisionSample(f, r), f.nextDelay)
            case Go(g, _) =>
              match Decide(cfg, g, failure, r)
              case Stop(_, e) =>
                && DecisionRows(cfg, f, failure, r) == Some(e.reason)
                && Reports(f, failure, e, DecisionSample(f, r), f.nextDelay)
              case Go(h, d) =>
                && DecisionRows(cfg, f, failure, r).None? && d == Effective(r)
                && Decided(f, h, failure, r)
  {
  }

  lemma ScheduleStage(cfg: Config, f: Flow, h: Flow, failure: Failure, r: FailureInputs)
    requires f.budget.active.Some? && Decided(f, h, failure, r)
    ensures match Schedule(cfg, h, Effective(r), r)
            case Stop(_, e) =>
              && SchedulingRows(cfg, f, r) == Some(e.reason)
              && Reports(f, failure, e, SchedulingSample(cfg, f, r), Some(RetryDelay(cfg, f, r)))
            case Go(k, step) =>
              && step.effective == RetryDelay(cfg, f, r)
              && k.budget == Sampled(h.budget, r.afterBackoff) && k.lastFailure == Some(failure)
              && k.nextDelay == Some(step.effective) && k.currentAttempt.None?
              && Follows(r.afterRules.now, r.afterBackoff) && !Expired(cfg, f.budget.startedAt, r.afterBackoff)
              && LimitAt(f.budget, r.completion, r.afterBackoff, step.effective).None?
              && FirstPanic(r.scheduledObservers).None?
  {
    assert TotalElapsed(Sampled(h.budget, r.afterBackoff)) == Since(f.budget.startedAt, r.afterBackoff);
  }

  lemma DeadlineStage(cfg: Config, f: Flow, k: Flow, failure: Failure, step: BackoffStep, r: FailureInputs)
    requires f.budget.active.Some? && step.effective == RetryDelay(cfg, f, r)
    requires k.budget == Sampled(Finished(f.budget, r.completion), r.afterBackoff)
    requires k.lastFailure == Some(failure) && k.nextDelay == Some(step.effective) && k.currentAttempt.None?
    requires Follows(r.afterRules.now, r.afterBackoff) && !Expired(cfg, f.budget.startedAt, r.afterBackoff)
    requires LimitAt(f.budget, r.completion, r.afterBackoff, step.effective).None?
             && FirstPanic(r.scheduledObservers).None?
    ensures match FixDeadline(cfg, k, step, r)
            case Stop(_, e) =>
              && SchedulingRows(cfg, f, r) == Some(e.reason)
              && Reports(f, failure, e, SchedulingSample(cfg, f, r), Some(step.effective))
            case Go(g, plan) =>
              && SchedulingRows(cfg, f, r).None?
              && g.lastFailure == Some(failure) && g.nextDelay == Some(step.effective)
              && BackoffDeadline(cfg, f.budget.startedAt, r.afterScheduled.now, step.effective) == Ok(plan.deadline)
  {
    assert TotalElapsed(Sampled(k.budget, r.afterScheduled.now)) == Since(f.budget.startedAt, r.afterScheduled.now);
  }

  /**
   Recording a failure ends exactly as the table says; every terminal error retains the failure and
   reports the last accepted sample and the delay published by then.
   */
  lemma TableDecides(cfg: Config, f: Flow, failure: Failure, r: FailureInputs)
    requires f.budget.active.Some?
    ensures match RecordFailureStep(cfg, f, failure, r)
            case Stop(_, e) =>
              && Verdict(cfg, f, failure, r) == Some(e.reason)
              && (if DecisionRows(cfg, f, failure, r).Some?
                  then Reports(f, failure, e, DecisionSample(f, r), f.nextDelay)
                  else Reports(f, failure, e, SchedulingSample(cfg, f, r), Some(RetryDelay(cfg, f, r))))
            case Go(g, plan) =>
              && Verdict(cfg, f, failure, r).None?
              && g.lastFailure == Some(failure) && g.nextDelay == Some(RetryDelay(cfg, f, r))
              && BackoffDeadline(cfg, f.budget.startedAt, r.afterScheduled.now, RetryDelay(cfg, f, r)) ==
                 Ok(plan.deadline)
  {
    if Coherent(f.budget, r.completion) {
      DecisionStage(cfg, f, failure, r);
      var observed := ObserveFailure(Failed(f, failure, r.completion), failure, r);
      if observed.Go? {
        var decided := Decide(cfg, observed.flow, failure, r);
        if decided.Go? {
          ScheduleStage(cfg, f, decided.flow, failure, r);
          var scheduled := Schedule(cfg, decided.flow, decided.value, r);
          if scheduled.Go? {
            DeadlineStage(cfg, f, scheduled.flow, failure, scheduled.value, r);
          }
        }
      }
    }
  }

  /**
   A planned retry never bypasses a limit: at the last sample the flow has not expired and an
   attempt remains, the operation budget is unspent, and the delay fits the total budget.
   */
  lemma RetryRespectsLimits(cfg: Config, f: Flow, failure: Failure, r: FailureInputs)
    requires f.budget.active.Some? && RecordFailureStep(cfg, f, failure, r).Go?
    ensures var b, delay := f.budget, RetryDelay(cfg, f, r);
            && b.attempts < b.limits.maxAttempts
            && (b.limits.operationBudget.Some? ==> OperationTime(b, r.completion) < b.limits.operationBudget.value)
            && (b.limits.totalBudget.Some? ==>
                 SaturatingAdd(Since(b.startedAt, r.afterScheduled.now), delay) < b.limits.totalBudget.value)
            && !Expired(cfg, b.startedAt, r.afterScheduled.now)
            && !Judge(r.rules, 0).decision.Abort?
  {
    TableDecides(cfg, f, failure, r);
  }

  /**
   Only a delegated application error looks at the fallback: for a timeout, for a panic, or
   once some rule has decided, both fallbacks give the same result.
   */
  lemma FallbackOnlyForDelegatedErrors(cfg: Config, other: Fallback, f: Flow, failure: Failure, r: FailureInputs)
    requires f.budget.active.Some?
    requires !failure.AppError? || !Judge(r.rules, 0).decision.UseDefault?
    ensures RecordFailureStep(cfg, f, failure, r) == RecordFailureStep(cfg.(fallback := other), f, failure, r)
  {
    if Coherent(f.budget, r.completion) {
      var observed := ObserveFailure(Failed(f, failure, r.completion), failure, r);
      if observed.Go? {
        var decided := Decide(cfg, observed.flow, failure, r);
        assert decided == Decide(cfg.(fallback := other), observed.flow, failure, r);
        if decided.Go? {
          SchedulingIgnoresFallback(cfg, other, decided.flow, decided.value, r);
        }
      }
    }
  }

  lemma SchedulingIgnoresFallback(cfg: Config, other: Fallback, f: Flow, decision: Decision, r: FailureInputs)
    ensures Schedule(cfg, f, decision, r) == Schedule(cfg.(fallback := other), f, decision, r)
    ensures forall k, step :: FixDeadline(cfg, k, step, r) == FixDeadline(cfg.(fallback := other), k, step, r)
  {
  }

  /** With every attempt used, some row of the table always applies. */
  lemma SomeRowApplies(cfg: Config, f: Flow, failure: Failure, r: FailureInputs)
    requires f.budget.active.Some? && f.budget.attempts == f.budget.limits.maxAttempts
    ensures Verdict(cfg, f, failure, r).Some?
  {
  }

  lemma AttemptLimitRow(cfg: Config, f: Flow, failure: Failure, r: FailureInputs)
    requires f.budget.active.Some? && Verdict(cfg, f, failure, r) == Some(Exhausted(AttemptLimit))
    ensures f.budget.attempts >= f.budget.limits.maxAttempts
  {
  }

  /** Once every attempt is used no retry can be planned, and the attempt limit is reported exactly on that row. */
  lemma LastAttemptNeverRetries(cfg: Config, f: Flow, failure: Failure, r: FailureInputs)
    requires f.budget.active.Some? && f.budget.attempts <= f.budget.limits.maxAttempts
    ensures f.budget.attempts == f.budget.limits.maxAttempts ==> RecordFailureStep(cfg, f, failure, r).Stop?
    ensures Verdict(cfg, f, failure, r) == Some(Exhausted(AttemptLimit)) ==>
             f.budget.attempts == f.budget.limits.maxAttempts
  {
    TableDecides(cfg, f, failure, r);
    if f.budget.attempts == f.budget.limits.maxAttempts {
      SomeRowApplies(cfg, f, failure, r);
    } else if Verdict(cfg, f, failure, r) == Some(Exhausted(AttemptLimit)) {
      AttemptLimitRow(cfg, f, failure, r);
    }
  }
}
