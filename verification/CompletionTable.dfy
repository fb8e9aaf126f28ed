/**
 How the end of an attempt and the other terminal recordings are accounted for: which sample
 ends what, which times the context reports, and for which reason the flow stops.
 */
module CompletionTable {
  import opened Options
  import opened Time
  import Backoff
  import opened Accounting
  import opened Callbacks
  import opened FlowModel
  import opened FailureTable
  import opened AdmissionTable

  // --- One recording -----------------------------------------------------------------------------------

  /** The context of an attempt that ran from its admission to the sample `now`. */
  predicate RanUntil(c: Context, b: Budget, now: Instant)
    requires b.active.Some?
  {
    var spent := now.at - b.active.value.at;
    && c.attempts == b.attempts && c.limits == b.limits
    && c.lastAttemptElapsed == spent && c.operationElapsed == b.operationElapsed + spent
    && c.totalElapsed == now.at - b.startedAt.at
  }

  /** The accounting after that attempt. */
  predicate EndedAt(b: Budget, now: Instant, d: Budget)
    requires b.active.Some?
  {
    var spent := now.at - b.active.value.at;
    && d.active.None? && d.sampledAt == now && d.attempts == b.attempts
    && d.limits == b.limits && d.startedAt == b.startedAt
    && d.lastAttemptElapsed == spent && d.operationElapsed == b.operationElapsed + spent
    && d.completed == b.completed + [Interval(b.active.value.at, now.at)]
  }

  lemma FinishedEnds(f: Flow, now: Instant)
    requires Inv(f.budget) && f.budget.active.Some? && Follows(f.budget.sampledAt, now)
    ensures EndedAt(f.budget, now, Finished(f.budget, now))
    ensures RanUntil(Snapshot(f.(budget := Finished(f.budget, now))), f.budget, now)
  {
    FinishedExact(f.budget, now);
  }

  /** The context names the attempt and its timeout as the flow does, or no longer. */
  predicate Names(c: Context, f: Flow, overlay: bool) {
    && c.currentAttempt == (if overlay then f.currentAttempt else None)
    && c.hardTimeout == (if overlay then f.hardTimeout else None)
    && c.nextDelay == f.nextDelay && c.hint == f.hint
  }

  /** Success is accounted for at its completion sample, and refused exactly when that sample regresses. */
  lemma SuccessDecides(f: Flow, now: Instant)
    requires Inv(f.budget) && f.budget.active.Some?
    ensures match FinishSuccessStep(f, now)
            case Go(g, context) =>
              && Follows(f.budget.sampledAt, now)
              && EndedAt(f.budget, now, g.budget) && RanUntil(context, f.budget, now) && Names(context, f, false)
              && g.trace == f.trace
            case Stop(g, e) =>
              && !Follows(f.budget.sampledAt, now) && Some(e.reason) == CLOCK_ROW
              && Cleared(f, g, e) && g.budget == f.budget
  {
    if Follows(f.budget.sampledAt, now) {
      FinishedEnds(f, now);
    } else {
      ClockClears(f);
    }
  }

  /** A stop that ends the running attempt: for this reason at a coherent sample, by the clock otherwise. */
  predicate EndsWith(f: Flow, g: Flow, e: RetryError, reason: Reason, now: Instant)
    requires f.budget.active.Some?
  {
    && e.lastFailure == f.lastFailure && g.trace == f.trace
    && (if Follows(f.budget.sampledAt, now)
        then e.reason == reason && EndedAt(f.budget, now, g.budget) && RanUntil(e.context, f.budget, now)
        else Some(e.reason) == CLOCK_ROW && g.budget == f.budget && TakenAt(e.context, f.budget, f.budget.sampledAt))
  }

  /** A cancelled attempt ends at its own sample and is still named. */
  lemma CancellationDecides(f: Flow, now: Instant)
    requires Inv(f.budget) && f.budget.active.Some?
    ensures var s := AttemptCancelledStop(f, now);
            && s.Stop? && EndsWith(f, s.flow, s.error, Cancelled(DuringAttempt), now)
            && Names(s.error.context, f, Follows(f.budget.sampledAt, now))
  {
    if Follows(f.budget.sampledAt, now) {
      FinishedEnds(f, now);
    } else {
      ClockClears(f);
    }
  }

  /** An infrastructure failure of a running attempt ends it at its own sample. */
  lemma BreakdownDecides(f: Flow, infrastructure: Infrastructure, now: Instant)
    requires Inv(f.budget) && f.budget.active.Some?
    ensures var s := InfrastructureStop(f, infrastructure, now);
            && s.Stop? && EndsWith(f, s.flow, s.error, InfrastructureFailed(infrastructure), now)
            && Names(s.error.context, f, true)
  {
    if Follows(f.budget.sampledAt, now) {
      FinishedEnds(f, now);
    }
  }

  /** A stop while nothing runs: for this reason at a coherent sample, by the clock otherwise. */
  predicate IdleStop(f: Flow, g: Flow, e: RetryError, reason: Reason, now: Instant) {
    if Follows(f.budget.sampledAt, now)
    then e.reason == reason && StoppedBefore(f, g, e, now) && g.trace == f.trace
    else Some(e.reason) == CLOCK_ROW && StoppedBefore(f, g, e, f.budget.sampledAt) && g.trace == f.trace
  }

  lemma IdleBreakdownDecides(f: Flow, infrastructure: Infrastructure, now: Instant)
    requires Inv(f.budget) && f.budget.active.None?
    ensures var s := InfrastructureStop(f, infrastructure, now);
            && s.Stop? && IdleStop(f, s.flow, s.error, InfrastructureFailed(infrastructure), now)
            && Names(s.error.context, f, true)
  {
  }

  lemma BackoffCancellationDecides(f: Flow, now: Instant)
    requires Inv(f.budget) && f.budget.active.None?
    ensures var s := BackoffCancelledStop(f, now);
            && s.Stop? && IdleStop(f, s.flow, s.error, Cancelled(DuringBackoff), now)
            && Names(s.error.context, f, Follows(f.budget.sampledAt, now))
  {
    ClockClears(f);
  }

  /** One look at the backoff: the clock, then cancellation, then whether the due instant has come. */
  lemma PollDecides(f: Flow, b: Boundary, due: Instant)
    requires Inv(f.budget) && due.domain == f.budget.sampledAt.domain
    ensures match CheckBackoffStep(f, b, due)
            case Go(g, ready) =>
              && Follows(f.budget.sampledAt, b.now) && !b.cancelled
              && g == At(f, b.now) && (ready <==> due.at <= b.now.at)
            case Stop(g, e) =>
              && (b.cancelled || !Follows(f.budget.sampledAt, b.now))
              && IdleStop(f, g, e, Cancelled(DuringBackoff), b.now) && Names(e.context, f, false)
  {
    ClockClears(f);
  }

  // --- Recording a failure --------------------------------------------------------------------------------

  /** The observers of a failure are told first, with the attempt ended at the completion sample. */
  predicate FailureReported(f: Flow, g: Flow, failure: Failure, completion: Instant)
    requires f.budget.active.Some?
  {
    && |f.trace| < |g.trace| && g.trace[..|f.trace|] == f.trace
    && var event := g.trace[|f.trace|];
       && event.AttemptFailed? && event.failure == failure
       && RanUntil(event.context, f.budget, completion) && Names(event.context, f, true)
  }

  /** Later control steps move the last sample and nothing else of the accounting. */
  predicate EndedBy(b: Budget, now: Instant, d: Budget)
    requires b.active.Some?
  {
    EndedAt(b, now, d.(sampledAt := now))
  }

  lemma ObservationReports(f: Flow, failure: Failure, r: FailureInputs)
    ensures var s, k := ObserveFailure(f, failure, r), |f.trace|;
            && |s.flow.trace| == k + 1 && s.flow.trace[..k] == f.trace
            && s.flow.trace[k] == AttemptFailed(Invoked(r.failedObservers), failure, Snapshot(f))
            && s.flow.budget == Sampled(f.budget, s.flow.budget.sampledAt)
  {
  }

  /** What follows the report only appends to the trace. */
  predicate Appended(f: Flow, g: Flow) {
    && |f.trace| <= |g.trace| && g.trace[..|f.trace|] == f.trace
    && g.budget == Sampled(f.budget, g.budget.sampledAt)
  }

  lemma DecideAppends(cfg: Config, f: Flow, failure: Failure, r: FailureInputs)
    ensures Appended(f, Decide(cfg, f, failure, r).flow)
  {
  }

  lemma ScheduleAppends(cfg: Config, f: Flow, decision: Decision, r: FailureInputs)
    ensures Appended(f, Schedule(cfg, f, decision, r).flow)
  {
  }

  lemma DeadlineAppends(cfg: Config, f: Flow, step: Backoff.BackoffStep, r: FailureInputs)
    ensures Appended(f, FixDeadline(cfg, f, step, r).flow)
  {
  }

  lemma AppendedTwice(f: Flow, g: Flow, h: Flow)
    requires Appended(f, g) && Appended(g, h)
    ensures Appended(f, h)
  {
    assert h.trace[..|f.trace|] == h.trace[..|g.trace|][..|f.trace|];
  }

  /** After the completion sample, the report comes first and everything else is appended. */
  lemma CompletionReports(cfg: Config, f: Flow, failure: Failure, r: FailureInputs)
    ensures var g := AfterCompletion(cfg, f, failure, r).flow;
            && |f.trace| < |g.trace| && g.trace[..|f.trace|] == f.trace
            && g.trace[|f.trace|] == AttemptFailed(Invoked(r.failedObservers), failure, Snapshot(f))
            && g.budget == Sampled(f.budget, g.budget.sampledAt)
  {
    ObservationReports(f, failure, r);
    var observed := ObserveFailure(f, failure, r);
    var last := AfterCompletion(cfg, f, failure, r).flow;
    assert Appended(observed.flow, last) by {
      if observed.Go? {
        DecideAppends(cfg, observed.flow, failure, r);
        var decided := Decide(cfg, observed.flow, failure, r);
        if decided.Go? {
          ScheduleAppends(cfg, decided.flow, decided.value, r);
          AppendedTwice(observed.flow, decided.flow, Schedule(cfg, decided.flow, decided.value, r).flow);
          var scheduled := Schedule(cfg, decided.flow, decided.value, r);
          if scheduled.Go? {
            DeadlineAppends(cfg, scheduled.flow, scheduled.value, r);
            AppendedTwice(observed.flow, scheduled.flow, last);
          }
        }
      }
    }
    assert last.trace[..|f.trace|] == last.trace[..|observed.flow.trace|][..|f.trace|];
    assert last.trace[|f.trace|] == last.trace[..|observed.flow.trace|][|f.trace|];
  }

  /**
   A failure with a coherent completion is reported with its attempt ended at that very sample, and
   is what the flow keeps, or what its terminal error names; an incoherent completion stops at once.
   */
  lemma FailureDecides(cfg: Config, f: Flow, failure: Failure, r: FailureInputs)
    requires Inv(f.budget) && f.budget.active.Some?
    ensures var s := RecordFailureStep(cfg, f, failure, r);
            && (s.Go? ==> s.flow.lastFailure == Some(failure))
            && (s.Stop? ==> s.error.lastFailure == Some(failure) && s.error.reason != Cancelled(DuringAttempt))
            && (if Follows(f.budget.sampledAt, r.completion)
                then FailureReported(f, s.flow, failure, r.completion)
                     && EndedBy(f.budget, r.completion, s.flow.budget)
                else s.Stop? && Some(s.error.reason) == CLOCK_ROW && s.flow.budget == f.budget
                     && s.flow.trace == f.trace)
  {
    TableDecides(cfg, f, failure, r);
    if Follows(f.budget.sampledAt, r.completion) {
      FinishedEnds(f, r.completion);
      var failed := Failed(f, failure, r.completion);
      assert Snapshot(failed) == Snapshot(f.(budget := Finished(f.budget, r.completion)));
      CompletionReports(cfg, failed, failure, r);
    }
  }
}
