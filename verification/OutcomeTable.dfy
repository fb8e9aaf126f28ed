/**
 What an admitted attempt and the wait after it come to, read off the outcome itself: which
 outcomes are attempt failures and of what kind, which ones stop the flow and for which reason.
 */
module OutcomeTable {
  import opened Options
  import opened Time
  import opened Accounting
  import opened FlowModel
  import opened FlowRuns
  import opened FailureTable
  import opened CompletionTable
  import opened Driving
  import opened RetryLoop
  import opened RetryFacade
  import opened TimedLoop
  import Worker = WorkerFacade
  import Async = AsyncFacade
  import Protocol = WorkerProtocol
  import Selection

  // --- What an iteration does with its admitted attempt ------------------------------------------------

  /** The flow ends with this value, with the attempt ended at `now`; a regressing sample ends it by the clock. */
  predicate Succeeds(g: Flow, i: Iteration, value: int, now: Instant)
    requires g.budget.active.Some?
  {
    && i.Last? && i.called
    && (if Follows(g.budget.sampledAt, now)
        then && i.terminal.Success? && i.terminal.value == value
             && RanUntil(i.terminal.context, g.budget, now) && EndedAt(g.budget, now, i.flow.budget)
        else i.terminal.Failure? && Some(i.terminal.error.reason) == CLOCK_ROW && i.flow.budget == g.budget)
  }

  /** The flow ends for this reason, with the attempt ended at `now` and named in the context or not. */
  predicate Stops(g: Flow, i: Iteration, reason: Reason, now: Instant, overlay: bool)
    requires g.budget.active.Some?
  {
    && i.Last? && i.called && i.terminal.Failure?
    && EndsWith(g, i.flow, i.terminal.error, reason, now)
    && (Follows(g.budget.sampledAt, now) ==> Names(i.terminal.error.context, g, overlay))
  }

  /** The attempt has failed like this: observers are told first, and the failure is what the flow keeps or reports. */
  predicate Fails(g: Flow, i: Iteration, failure: Failure, completion: Instant)
    requires g.budget.active.Some?
  {
    && (i.Continue? ==> i.flow.lastFailure == Some(failure))
    && (i.Last? ==>
          && i.called && i.terminal.Failure? && i.terminal.error.lastFailure == Some(failure)
          && i.terminal.error.reason != Cancelled(DuringAttempt))
    && (if Follows(g.budget.sampledAt, completion) then FailureReported(g, i.flow, failure, completion)
        else i.Last? && i.terminal.Failure? && Some(i.terminal.error.reason) == CLOCK_ROW && i.flow.trace == g.trace)
  }

  /** What follows a planned retry is decided by its wait alone. */
  predicate WaitedOut(h: Flow, plan: Plan, i: Iteration, waited: Selection.Waited, now: Instant) {
    match waited
    case WaitElapsed => i == Continue(h, plan)
    case WaitStopped =>
      i.Last? && i.called && i.terminal.Failure? && IdleStop(h, i.flow, i.terminal.error, Cancelled(DuringBackoff), now)
    case WaitBroken =>
      && i.Last? && i.called && i.terminal.Failure?
      && IdleStop(h, i.flow, i.terminal.error, InfrastructureFailed(TimerFailed), now)
    case WaitPending => false
  }

  lemma WaitDecides(h: Flow, plan: Plan, waited: Selection.Waited, now: Instant)
    requires Inv(h.budget) && h.budget.active.None? && !waited.WaitPending?
    ensures WaitedOut(h, plan, AfterWait(h, plan, WaitFrom(waited, now)), waited, now)
    ensures var i := AfterWait(h, plan, WaitFrom(waited, now));
            && i.flow.trace == h.trace
            && (i.Continue? ==> i.flow.lastFailure == h.lastFailure)
            && (i.Last? ==> i.terminal.error.lastFailure == h.lastFailure
                            && i.terminal.error.reason != Cancelled(DuringAttempt))
  {
    BackoffCancellationDecides(h, now);
    IdleBreakdownDecides(ClearOverlay(h), TimerFailed, now);
  }

  /** After any recorded failure the iteration fails with it, whatever the wait comes to. */
  lemma FailurePath(cfg: Config, g: Flow, failure: Failure, r: FailureInputs, waits: Waits, i: Iteration)
    requires StateInv(cfg, State(g, Active))
    requires match RecordFailureStep(cfg, g, failure, r)
             case Go(h, plan) => i == AfterWait(h, plan, WaitOf(waits, plan))
             case Stop(h, e) => i == Last(h, Failure(e), true)
    ensures Fails(g, i, failure, r.completion)
  {
    FailureDecides(cfg, g, failure, r);
    RecordFailureKept(cfg, g, failure, r);
    var s := RecordFailureStep(cfg, g, failure, r);
    if s.Go? {
      BackoffCancellationDecides(s.flow, AnySample(WaitOf(waits, s.value)));
      IdleBreakdownDecides(ClearOverlay(s.flow), TimerFailed, AnySample(WaitOf(waits, s.value)));
    }
  }

  function AnySample(wait: Wait): Instant { if wait.Elapsed? then Instant(0, 0) else wait.now }

  // --- The same-thread facade ----------------------------------------------------------------------------

  /** A returned value ends the flow with it; an error is an attempt failure with that very code. */
  lemma OperationDecides(cfg: Config, cancellable: bool, f: Flow, row: RetryRow)
    requires Idle(cfg, f) && AdmitStep(cfg, f, row.before, row.commit).Go?
    ensures var g := AdmitStep(cfg, f, row.before, row.commit).flow;
            var i := Iterate(cfg, f, AsRow(cancellable, row));
            match row.operation
            case Ok(value) => Succeeds(g, i, value, row.finished)
            case Err(code) =>
              && Fails(g, i, AppError(code), row.failure.completion)
              && (RecordFailureStep(cfg, g, AppError(code), row.failure).Go? ==>
                    var s := RecordFailureStep(cfg, g, AppError(code), row.failure);
                    WaitedOut(s.flow, s.value, i,
                              Selection.BlockingWait(Selection.Firing(row.wait), s.value.immediate, cancellable),
                              row.waitEnded))
  {
    AdmitKept(cfg, f, row.before, row.commit);
    var g := AdmitStep(cfg, f, row.before, row.commit).flow;
    var i, waits := Iterate(cfg, f, AsRow(cancellable, row)), BlockingWaits(row.wait, row.waitEnded, cancellable);
    match row.operation
    case Ok(value) => SuccessDecides(g, row.finished);
    case Err(code) =>
      var s := RecordFailureStep(cfg, g, AppError(code), row.failure);
      FailurePath(cfg, g, AppError(code), row.failure, waits, i);
      if s.Go? {
        RecordFailureKept(cfg, g, AppError(code), row.failure);
        BlockingWaitDecides(s.flow, s.value, row.wait, row.waitEnded, cancellable);
      }
  }

  lemma BlockingWaitDecides(
      h: Flow, plan: Plan, s: Selection.WaitScript, now: Instant, cancellable: bool)
    requires Inv(h.budget) && h.budget.active.None?
    ensures WaitedOut(h, plan, AfterWait(h, plan, WaitOf(BlockingWaits(s, now, cancellable), plan)),
                      Selection.BlockingWait(Selection.Firing(s), plan.immediate, cancellable), now)
  {
    Selection.FiringNeverPends(s, cancellable);
    WaitDecides(h, plan, Selection.BlockingWait(Selection.Firing(s), plan.immediate, cancellable), now);
  }

  // --- The worker facade -----------------------------------------------------------------------------------

  function PlannedScope(timeout: Option<Timeout>): Scope { if timeout.Some? then timeout.value.scope else FlowScope }

  /** The attempt failure that a worker outcome is, if it is one. */
  function WorkerFailure(o: Protocol.Outcome, timeout: Option<Timeout>): Option<Failure> {
    match o
    case CompletedWith(FailedWith(code)) => Some(AppError(code))
    case CompletedWith(Panicked) => Some(AttemptPanicked)
    case Stopped(Timeout) => Some(AttemptTimedOut(PlannedScope(timeout)))
    case _ => None
  }

  /** What stopped an operation that is still running. */
  function StopCause(trigger: Protocol.Trigger, timeout: Option<Timeout>): StopTrigger {
    match trigger
    case Cancellation => OnCancellation
    case TimerFailure => OnTimerFailure
    case Timeout => if PlannedScope(timeout).AttemptScope? then OnAttemptTimeout else OnFlowTimeout
  }

  /** The reason for which any other worker outcome stops the flow, and whether the attempt is still named. */
  function WorkerStop(o: Protocol.Outcome, timeout: Option<Timeout>): Option<(Reason, bool)> {
    match o
    case Stopped(Cancellation) => Some((Cancelled(DuringAttempt), true))
    case TimerFailed => Some((InfrastructureFailed(Infrastructure.TimerFailed), false))
    case ChannelClosed => Some((InfrastructureFailed(WorkerChannelClosed), true))
    case StillRunning(trigger) => Some((InfrastructureFailed(WorkerStillRunning(StopCause(trigger, timeout))), true))
    case _ => None
  }

  ghost predicate WorkerRuled(r: Worker.AttemptReport, g: Flow, timeout: Option<Timeout>, i: Iteration,
                              finished: Instant, completion: Instant)
    requires g.budget.active.Some?
  {
    var failure, stop := WorkerFailure(r.outcome, timeout), WorkerStop(r.outcome, timeout);
    if failure.Some? then Fails(g, i, failure.value, completion)
    else if stop.Some? then Stops(g, i, stop.value.0, finished, stop.value.1)
    else r.outcome == Protocol.CompletedWith(Protocol.Succeeded) && Succeeds(g, i, r.stored.value, finished)
  }

  lemma InterruptionDecides(f: Flow, end: AttemptEnd, timeout: Option<Timeout>, now: Instant, reason: Reason,
      overlay: bool)
    requires Inv(f.budget) && f.budget.active.Some? && !end.Returned? && FailureOf(end, timeout).None?
    requires match end
             case StopRequested => reason == Cancelled(DuringAttempt) && overlay
             case TimerBroken(keeps) => reason == InfrastructureFailed(Infrastructure.TimerFailed) && overlay == keeps
             case ChannelLost => reason == InfrastructureFailed(WorkerChannelClosed) && overlay
             case LeftRunning(cause) =>
               reason == InfrastructureFailed(WorkerStillRunning(TriggerOf(cause, ScopeOf(timeout)))) && overlay
             case _ => false
    ensures var s := Interrupted(f, end, timeout, now);
            && s.Stop? && EndsWith(f, s.flow, s.error, reason, now)
            && (Follows(f.budget.sampledAt, now) ==> Names(s.error.context, f, overlay))
  {
    match end
    case StopRequested => CancellationDecides(f, now);
    case TimerBroken(keeps) => BreakdownDecides(if keeps then f else ClearOverlay(f), Infrastructure.TimerFailed, now);
    case ChannelLost => BreakdownDecides(f, WorkerChannelClosed, now);
    case LeftRunning(cause) => BreakdownDecides(f, WorkerStillRunning(TriggerOf(cause, ScopeOf(timeout))), now);
  }

  /** An end that is an attempt failure is recorded as that failure, and then waited out. */
  lemma FailingEnd(cfg: Config, g: Flow, timeout: Option<Timeout>, row: TimedRow, failure: Failure)
    requires StateInv(cfg, State(g, Active)) && !row.end.Returned? && FailureOf(row.end, timeout) == Some(failure)
    ensures var i, s := Settled(cfg, g, timeout, row), RecordFailureStep(cfg, g, failure, row.failure);
            && Fails(g, i, failure, row.failure.completion)
            && (s.Go? ==> i == AfterWait(s.flow, s.value, WaitOf(row.wait, s.value))
                          && Inv(s.flow.budget) && s.flow.budget.active.None?)
  {
    FailurePath(cfg, g, failure, row.failure, row.wait, Settled(cfg, g, timeout, row));
    RecordFailureKept(cfg, g, failure, row.failure);
  }

  lemma WorkerFailureEnds(r: Worker.AttemptReport, timeout: Option<Timeout>)
    requires WorkerFailure(r.outcome, timeout).Some?
    ensures !Worker.EndOf(r).Returned? && FailureOf(Worker.EndOf(r), timeout) == WorkerFailure(r.outcome, timeout)
  {
  }

  lemma WorkerFailureSettles(cfg: Config, g: Flow, timeout: Option<Timeout>, cancellable: bool, row: Worker.WorkerRow)
    requires StateInv(cfg, State(g, Active)) && WorkerFailure(row.report.outcome, timeout).Some?
    ensures var failure := WorkerFailure(row.report.outcome, timeout).value;
            var i, s := Settled(cfg, g, timeout, Worker.AsTimed(cancellable, row)),
                        RecordFailureStep(cfg, g, failure, row.failure);
            && Fails(g, i, failure, row.failure.completion)
            && (s.Go? ==> WaitedOut(s.flow, s.value, i,
                            Selection.BlockingWait(Selection.Firing(row.wait), s.value.immediate, cancellable),
                            row.waitEnded))
  {
    var failure, timed := WorkerFailure(row.report.outcome, timeout).value, Worker.AsTimed(cancellable, row);
    WorkerFailureEnds(row.report, timeout);
    FailingEnd(cfg, g, timeout, timed, failure);
    var s := RecordFailureStep(cfg, g, failure, row.failure);
    if s.Go? {
      BlockingWaitDecides(s.flow, s.value, row.wait, row.waitEnded, cancellable);
    }
  }

  lemma WorkerStopSettles(cfg: Config, g: Flow, timeout: Option<Timeout>, cancellable: bool, row: Worker.WorkerRow)
    requires Inv(g.budget) && g.budget.active.Some? && WorkerStop(row.report.outcome, timeout).Some?
    ensures var stop := WorkerStop(row.report.outcome, timeout).value;
            Stops(g, Settled(cfg, g, timeout, Worker.AsTimed(cancellable, row)), stop.0, row.finished, stop.1)
  {
    var stop, end := WorkerStop(row.report.outcome, timeout).value, Worker.EndOf(row.report);
    InterruptionDecides(g, end, timeout, row.finished, stop.0, stop.1);
  }

  lemma WorkerSettles(cfg: Config, g: Flow, timeout: Option<Timeout>, cancellable: bool, row: Worker.WorkerRow)
    requires StateInv(cfg, State(g, Active))
    ensures WorkerRuled(row.report, g, timeout, Settled(cfg, g, timeout, Worker.AsTimed(cancellable, row)),
                        row.finished, row.failure.completion)
  {
    if WorkerFailure(row.report.outcome, timeout).Some? {
      WorkerFailureSettles(cfg, g, timeout, cancellable, row);
    } else if WorkerStop(row.report.outcome, timeout).Some? {
      WorkerStopSettles(cfg, g, timeout, cancellable, row);
    } else {
      SuccessDecides(g, row.finished);
    }
  }

  /**
   An admitted worker attempt is accounted for by its outcome: an error, a panic and a timeout are
   failures of that kind, a cancellation stops the flow as one, and everything else stops it for
   its own reason. Cancelled during the attempt is reported exactly for a cancelled one.
   */
  lemma WorkerOutcomeDecides(cfg: Config, cancellable: bool, f: Flow, row: Worker.WorkerRow)
    requires Idle(cfg, f) && TimedAdmit(cfg, f, Worker.AsTimed(cancellable, row)).Go?
    ensures var a, i := TimedAdmit(cfg, f, Worker.AsTimed(cancellable, row)),
                        TimedIterate(cfg, f, Worker.AsTimed(cancellable, row));
            && WorkerRuled(row.report, a.flow, a.value, i, row.finished, row.failure.completion)
            && (i.Last? && i.terminal.Failure? && i.terminal.error.reason == Cancelled(DuringAttempt) <==>
                  row.report.outcome == Protocol.Stopped(Protocol.Cancellation)
                  && Follows(a.flow.budget.sampledAt, row.finished))
  {
    TimedAdmitKept(cfg, f, Worker.AsTimed(cancellable, row));
    var a := TimedAdmit(cfg, f, Worker.AsTimed(cancellable, row));
    WorkerSettles(cfg, a.flow, a.value, cancellable, row);
  }

  /** A retry planned for a failed worker attempt is followed by what the blocking wait comes to. */
  lemma WorkerWaitDecides(cfg: Config, cancellable: bool, f: Flow, row: Worker.WorkerRow)
    requires Idle(cfg, f) && TimedAdmit(cfg, f, Worker.AsTimed(cancellable, row)).Go?
    ensures var a := TimedAdmit(cfg, f, Worker.AsTimed(cancellable, row));
            var failure := WorkerFailure(row.report.outcome, a.value);
            failure.Some? && RecordFailureStep(cfg, a.flow, failure.value, row.failure).Go? ==>
              var s := RecordFailureStep(cfg, a.flow, failure.value, row.failure);
              WaitedOut(s.flow, s.value, TimedIterate(cfg, f, Worker.AsTimed(cancellable, row)),
                        Selection.BlockingWait(Selection.Firing(row.wait), s.value.immediate, cancellable),
                            row.waitEnded)
  {
    TimedAdmitKept(cfg, f, Worker.AsTimed(cancellable, row));
    var a := TimedAdmit(cfg, f, Worker.AsTimed(cancellable, row));
    if WorkerFailure(row.report.outcome, a.value).Some? {
      WorkerFailureSettles(cfg, a.flow, a.value, cancellable, row);
    }
  }

  // --- The asynchronous facade -----------------------------------------------------------------------------

  function AsyncFailure(o: Selection.AttemptOutcome, timeout: Option<Timeout>): Option<Failure> {
    match o
    case Completed(Err(code)) => Some(AppError(code))
    case TimedOut => Some(AttemptTimedOut(PlannedScope(timeout)))
    case _ => None
  }

  ghost predicate AsyncRuled(o: Selection.AttemptOutcome, g: Flow, timeout: Option<Timeout>, i: Iteration,
                             finished: Instant, completion: Instant)
    requires g.budget.active.Some?
  {
    match o
    case Completed(Ok(value)) => Succeeds(g, i, value, finished)
    case Completed(Err(code)) => Fails(g, i, AppError(code), completion)
    case TimedOut => Fails(g, i, AttemptTimedOut(PlannedScope(timeout)), completion)
    case Cancelled => Stops(g, i, Reason.Cancelled(DuringAttempt), finished, true)
    case TimerFailed => Stops(g, i, InfrastructureFailed(Infrastructure.TimerFailed), finished, true)
  }

  lemma AsyncWaitDecides(
      h: Flow, plan: Plan, s: Selection.WaitScript, now: Instant, cancellable: bool)
    requires Inv(h.budget) && h.budget.active.None?
    ensures WaitedOut(h, plan, AfterWait(h, plan, WaitOf(Async.AsyncWaits(s, now, cancellable), plan)),
                      Selection.AsyncWait(Selection.Firing(s), plan.immediate, cancellable), now)
  {
    Selection.FiringNeverPends(s, cancellable);
    WaitDecides(h, plan, Selection.AsyncWait(Selection.Firing(s), plan.immediate, cancellable), now);
  }

  lemma AsyncFailureEnds(o: Selection.AttemptOutcome, timeout: Option<Timeout>)
    requires AsyncFailure(o, timeout).Some?
    ensures !Async.EndOf(o).Returned? && FailureOf(Async.EndOf(o), timeout) == AsyncFailure(o, timeout)
  {
  }

  lemma AsyncFailureSettles(cfg: Config, g: Flow, timeout: Option<Timeout>, cancellable: bool, row: Async.AsyncRow,
                            o: Selection.AttemptOutcome)
    requires StateInv(cfg, State(g, Active)) && AsyncFailure(o, timeout).Some?
    ensures var failure := AsyncFailure(o, timeout).value;
            var i, s := Settled(cfg, g, timeout, Async.WithOutcome(row, cancellable, o)),
                        RecordFailureStep(cfg, g, failure, row.failure);
            && Fails(g, i, failure, row.failure.completion)
            && (s.Go? ==> WaitedOut(s.flow, s.value, i,
                            Selection.AsyncWait(Selection.Firing(row.wait), s.value.immediate, cancellable),
                            row.waitEnded))
  {
    var failure, timed := AsyncFailure(o, timeout).value, Async.WithOutcome(row, cancellable, o);
    AsyncFailureEnds(o, timeout);
    FailingEnd(cfg, g, timeout, timed, failure);
    var s := RecordFailureStep(cfg, g, failure, row.failure);
    if s.Go? {
      AsyncWaitDecides(s.flow, s.value, row.wait, row.waitEnded, cancellable);
    }
  }

  lemma AsyncSettles(cfg: Config, g: Flow, timeout: Option<Timeout>, cancellable: bool, row: Async.AsyncRow,
                     o: Selection.AttemptOutcome)
    requires StateInv(cfg, State(g, Active))
    ensures AsyncRuled(o, g, timeout, Settled(cfg, g, timeout, Async.WithOutcome(row, cancellable, o)),
                       row.finished, row.failure.completion)
  {
    if AsyncFailure(o, timeout).Some? {
      AsyncFailureSettles(cfg, g, timeout, cancellable, row, o);
    } else if o.Cancelled? {
      InterruptionDecides(g, Async.EndOf(o), timeout, row.finished, Reason.Cancelled(DuringAttempt), true);
    } else if o.TimerFailed? {
      InterruptionDecides(g, Async.EndOf(o), timeout, row.finished,
                          InfrastructureFailed(Infrastructure.TimerFailed), true);
    } else {
      SuccessDecides(g, row.finished);
    }
  }

  /** An admitted asynchronous attempt is accounted for by the outcome that polling it selected. */
  lemma AsyncOutcomeDecides(cfg: Config, cancellable: bool, f: Flow, row: Async.AsyncRow)
    requires Idle(cfg, f) && TimedAdmit(cfg, f, Async.AsTimed(cfg, cancellable, row)).Go?
    ensures var a, i := TimedAdmit(cfg, f, Async.AsTimed(cfg, cancellable, row)),
                        TimedIterate(cfg, f, Async.AsTimed(cfg, cancellable, row));
            var o := Async.OutcomeOf(cfg, cancellable, row);
            && AsyncRuled(o, a.flow, a.value, i, row.finished, row.failure.completion)
            && (i.Last? && i.terminal.Failure? && i.terminal.error.reason == Reason.Cancelled(DuringAttempt) <==>
                  o.Cancelled? && Follows(a.flow.budget.sampledAt, row.finished))
  {
    TimedAdmitKept(cfg, f, Async.AsTimed(cfg, cancellable, row));
    var a := TimedAdmit(cfg, f, Async.AsTimed(cfg, cancellable, row));
    AsyncSettles(cfg, a.flow, a.value, cancellable, row, Async.OutcomeOf(cfg, cancellable, row));
  }

  /** A retry planned for a failed asynchronous attempt is followed by what the sleep comes to. */
  lemma AsyncSleepDecides(cfg: Config, cancellable: bool, f: Flow, row: Async.AsyncRow)
    requires Idle(cfg, f) && TimedAdmit(cfg, f, Async.AsTimed(cfg, cancellable, row)).Go?
    ensures var a := TimedAdmit(cfg, f, Async.AsTimed(cfg, cancellable, row));
            var failure := AsyncFailure(Async.OutcomeOf(cfg, cancellable, row), a.value);
            failure.Some? && RecordFailureStep(cfg, a.flow, failure.value, row.failure).Go? ==>
              var s := RecordFailureStep(cfg, a.flow, failure.value, row.failure);
              WaitedOut(s.flow, s.value, TimedIterate(cfg, f, Async.AsTimed(cfg, cancellable, row)),
                        Selection.AsyncWait(Selection.Firing(row.wait), s.value.immediate, cancellable), row.waitEnded)
  {
    TimedAdmitKept(cfg, f, Async.AsTimed(cfg, cancellable, row));
    var a, o := TimedAdmit(cfg, f, Async.AsTimed(cfg, cancellable, row)), Async.OutcomeOf(cfg, cancellable, row);
    if AsyncFailure(o, a.value).Some? {
      AsyncFailureSettles(cfg, a.flow, a.value, cancellable, row, o);
    }
  }
}
