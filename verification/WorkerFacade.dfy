/**
 The worker facade: the timed loop over attempts that run on their own threads and hand
 their success value over in one slot shared by all attempts of the run.

 What an attempt reports is whatever some interleaving of `WorkerProtocol` leads to.
 */
module WorkerFacade {
  import opened Options
  import opened Time
  import opened Accounting
  import opened Callbacks
  import opened FlowModel
  import opened FlowRuns
  import opened FlowController
  import opened Driving
  import opened RetryLoop
  import opened RetryFacade
  import opened Completion
  import opened TimedLoop
  import opened TimedSteps
  import Protocol = WorkerProtocol
  import WorkerSafety
  import Selection

  /** What one executed attempt returned, and what its operation left in the slot by then. */
  datatype Report = Report(outcome: Protocol.Outcome, stored: Option<int>)

  /** An admitted attempt reports success only with a value in the slot, and never a stop by timer failure. */
  predicate Faithful(r: Report) {
    && !r.outcome.SpawnFailed? && !r.outcome.AdmissionRejected?
    && (r.outcome == Protocol.CompletedWith(Protocol.Succeeded) ==> r.stored.Some?)
    && (r.outcome.Stopped? ==> !r.outcome.trigger.TimerFailure?)
  }

  type AttemptReport = r: Report | Faithful(r) witness Report(Protocol.CompletedWith(Protocol.Panicked), None)

  /** Every interleaving of an admitted attempt ran its operation once and ends in a faithful report. */
  lemma InterleavingsReportFaithfully(c: Protocol.Setup, run: seq<Protocol.System>, steps: seq<Protocol.Step>, i: nat)
    requires Protocol.IsRun(c, run, steps) && i < |run| && run[i].caller.stage.Done? && run[i].caller.admitted
    ensures Faithful(Report(run[i].caller.stage.outcome, run[i].threads.stored)) && run[i].threads.calls == 1
    ensures var o := run[i].caller.stage.outcome;
            o.TimerFailed? || ((o.Stopped? || o.StillRunning?) && !o.trigger.Cancellation?) ==> c.timed
  {
    WorkerSafety.ReturnedOutcome(c, run, steps, i);
    WorkerSafety.RunInv(c, run, steps, i);
  }

  datatype WorkerRow = WorkerRow(
    before: BeforeInputs,
    registration: Option<Instant>,
    spawn: Option<Instant>,
    commit: Boundary,
    report: AttemptReport,
    finished: Instant,
    failure: FailureInputs,
    wait: Selection.WaitScript,
    waitEnded: Instant)

  function CauseOf(trigger: Protocol.Trigger): Cause {
    match trigger
    case Cancellation => CancellationCause
    case Timeout => TimeoutCause
    case TimerFailure => TimerCause
  }

  function EndOf(r: AttemptReport): AttemptEnd {
    match r.outcome
    case CompletedWith(Succeeded) => Returned(r.stored.value)
    case CompletedWith(FailedWith(code)) => Errored(code)
    case CompletedWith(Panicked) => Unwound
    case TimerFailed => TimerBroken(false)
    case Stopped(trigger) => if trigger.Cancellation? then StopRequested else Expired
    case StillRunning(trigger) => LeftRunning(CauseOf(trigger))
    case ChannelClosed => ChannelLost
  }

  lemma OnlySuccessReturns(r: AttemptReport)
    ensures EndOf(r).Returned? <==> r.outcome == Protocol.CompletedWith(Protocol.Succeeded)
    ensures EndOf(r).Returned? ==> r.stored == Some(EndOf(r).value)
  {
  }

  function AsTimed(cancellable: bool, row: WorkerRow): TimedRow {
    TimedRow(row.before, row.registration, row.spawn, row.commit, EndOf(row.report), row.finished, row.failure,
             BlockingWaits(row.wait, row.waitEnded, cancellable))
  }

  function AllTimed(cancellable: bool, script: nat -> WorkerRow): nat -> TimedRow {
    (k: nat) => AsTimed(cancellable, script(k))
  }

  /** A successful run returns what its last admitted attempt stored, whatever earlier attempts left behind. */
  lemma WorkerSucceedsWithLastValue(cfg: Config, cancellable: bool, startedAt: Instant, script: nat -> WorkerRow)
    requires ValidLimits(cfg.limits)
    ensures var e := TimedFrom(cfg, Start(cfg, startedAt), AllTimed(cancellable, script), 0, 0);
            && 1 <= e.rows <= cfg.limits.maxAttempts
            && (e.terminal.Success? ==>
                  script(e.rows - 1).report ==
                  Report(Protocol.CompletedWith(Protocol.Succeeded), Some(e.terminal.value)))
  {
    var endOf := (row: WorkerRow) => EndOf(row.report);
    LastEndDecides(cfg, startedAt, AllTimed(cancellable, script), script, endOf);
    var e := TimedFrom(cfg, Start(cfg, startedAt), AllTimed(cancellable, script), 0, 0);
    if e.terminal.Success? {
      OnlySuccessReturns(script(e.rows - 1).report);
    }
  }

  // --- The shared slot ----------------------------------------------------------------------------------

  class BlockingValueOperation {
    var value: Option<int>

    constructor ()
      ensures value == None
    {
      value := None;
    }

    /** The wrapped operation returned; only its success is kept here. */
    method Call(result: Result<int, int>) returns (r: Result<(), int>)
      modifies this
      ensures value == if result.Ok? then Some(result.value) else old(value)
      ensures r.Ok? <==> result.Ok?
      ensures r.Err? ==> r.error == result.error
    {
      match result {
        case Ok(v) =>
          value := Some(v);
          return Ok(());
        case Err(e) => return Err(e);
      }
    }

    /** Panics on an empty slot. */
    method TakeValue() returns (v: int)
      requires value.Some?
      modifies this
      ensures v == old(value).value && value == None
    {
      v := value.value;
      value := None;
    }

    method DiscardValue()
      modifies this
      ensures value == None
    {
      value := None;
    }

    /** What a whole attempt does to the slot before its outcome is returned. */
    method Perform(report: AttemptReport)
      requires value.None?
      modifies this
      ensures value == report.stored
    {
      if report.stored.Some? {
        var r := Call(Ok(report.stored.value));
      }
    }
  }

  class WorkerRetry {
    const cfg: Config
    const cancellable: bool

    constructor (cfg: Config, cancellable: bool)
      ensures this.cfg == cfg && this.cancellable == cancellable
    {
      this.cfg := cfg;
      this.cancellable := cancellable;
    }

    /** Runs the attempt on an empty slot and discards what it left there unless it succeeded. */
    method Execute(operation: BlockingValueOperation, report: AttemptReport)
      requires operation.value.None?
      modifies operation
      ensures EndOf(report).Returned? ==> operation.value == Some(EndOf(report).value)
      ensures IsFailure(EndOf(report)) ==> operation.value.None?
    {
      operation.Perform(report);
      var outcome := report.outcome;
      if (outcome.CompletedWith? && !outcome.result.Succeeded?) || outcome.Stopped? || outcome.TimerFailed? {
        operation.DiscardValue();
      }
    }

    /** The flow finishes first; the value is taken only from a flow that could finish. */
    method TakeSuccess(controller: RetryFlowController, operation: BlockingValueOperation, timeout: Option<Timeout>,
        row: TimedRow)
        returns (t: Terminal)
      requires controller.Valid() && controller.state.cfg == cfg && controller.Value().budget.active.Some?
      requires operation.value.Some? && row.end == Returned(operation.value.value)
      modifies controller.Repr(), operation
      ensures controller.Valid()
      ensures TimedSettle(cfg, old(controller.Value()), timeout, row) == Done(controller.Value(), t)
    {
      var context := controller.FinishSuccess(row.finished);
      if context.Err? {
        return Failure(context.error);
      }
      var value := operation.TakeValue();
      return Success(value, context.value);
    }

    /** The executed attempt is accounted for; a success takes its value from the slot, nothing else touches it. */
    method Account(controller: RetryFlowController, operation: BlockingValueOperation, timeout: Option<Timeout>,
        row: TimedRow)
        returns (r: Result<Plan, Terminal>)
      requires controller.Valid() && controller.state.cfg == cfg && controller.Value().budget.active.Some?
      requires row.end.Returned? ==> operation.value == Some(row.end.value)
      modifies controller.Repr(), operation
      ensures controller.Valid()
      ensures TimedSettle(cfg, old(controller.Value()), timeout, row) ==
                match r case Ok(plan) => Again(controller.Value(), plan) case Err(t) => Done(controller.Value(), t)
      ensures r.Ok? ==> IsFailure(row.end) && operation.value == old(operation.value)
    {
      if row.end.Returned? {
        var t := TakeSuccess(controller, operation, timeout, row);
        return Err(t);
      }
      r := SettleAttempt(controller, timeout, row);
    }

    /** The admitted attempt runs on an empty slot, and leaves it empty whenever another one may follow. */
    method Attempt(controller: RetryFlowController, operation: BlockingValueOperation, timeout: Option<Timeout>,
                   report: AttemptReport, row: TimedRow)
        returns (r: Result<Plan, Terminal>)
      requires controller.Valid() && controller.state.cfg == cfg && controller.Value().budget.active.Some?
      requires operation.value.None? && row.end == EndOf(report)
      modifies controller.Repr(), operation
      ensures controller.Valid()
      ensures TimedSettle(cfg, old(controller.Value()), timeout, row) ==
                match r case Ok(plan) => Again(controller.Value(), plan) case Err(t) => Done(controller.Value(), t)
      ensures r.Ok? ==> operation.value.None?
    {
      Execute(operation, report);
      r := Account(controller, operation, timeout, row);
    }

    /** One iteration; the slot is empty when its attempt starts, and again whenever another one follows. */
    method RunOnce(controller: RetryFlowController, operation: BlockingValueOperation, row: WorkerRow)
        returns (terminal: Option<Terminal>, called: bool, ghost plan: Plan)
      requires controller.Valid() && controller.state.cfg == cfg && controller.Value().budget.active.None?
      requires operation.value.None?
      modifies controller.Repr(), operation
      ensures controller.Valid()
      ensures TimedIterate(cfg, old(controller.Value()), AsTimed(cancellable, row)) ==
                match terminal
                case Some(t) => Last(controller.Value(), t, called)
                case None => Continue(controller.Value(), plan)
      ensures terminal.None? ==> called && operation.value.None?
    {
      plan := Plan(row.finished, true);
      var admitted := TryTimedAdmit(controller, AsTimed(cancellable, row));
      if admitted.Err? {
        return Some(Failure(admitted.error)), false, plan;
      }
      called := true;
      var settled := Attempt(controller, operation, admitted.value, row.report, AsTimed(cancellable, row));
      if settled.Err? {
        return Some(settled.error), called, plan;
      }
      plan := settled.value;
      var waited := Selection.WaitForBackoff(Selection.Firing(row.wait), settled.value.immediate, cancellable);
      Selection.FiringNeverPends(row.wait, cancellable);
      var ended := AwaitRetry(controller, WaitFrom(waited, row.waitEnded));
      return if ended.Some? then Some(Failure(ended.value)) else None, called, plan;
    }

    method RunInner(startedAt: Instant, script: nat -> WorkerRow)
        returns (terminal: Terminal, rows: nat, calls: nat, ghost flow: Flow)
      requires ValidLimits(cfg.limits)
      ensures var e := TimedFrom(cfg, Start(cfg, startedAt), AllTimed(cancellable, script), 0, 0);
              terminal == e.terminal && rows == e.rows && calls == e.calls
      ensures flow == TimedFrom(cfg, Start(cfg, startedAt), AllTimed(cancellable, script), 0, 0).flow
    {
      ghost var all := AllTimed(cancellable, script);
      var operation := new BlockingValueOperation();
      var controller := new RetryFlowController(startedAt, cfg);
      StartIdle(cfg, startedAt);
      TimedCounting(cfg);
      rows, calls := 0, 0;
      while true
        invariant controller.Valid() && controller.state.cfg == cfg && fresh(controller.Repr()) && fresh(operation)
        invariant Idle(cfg, controller.Value()) && operation.value.None?
        invariant TimedFrom(cfg, Start(cfg, startedAt), all, 0, 0) ==
                  TimedFrom(cfg, controller.Value(), all, rows, calls)
        decreases controller.Value().budget.limits.maxAttempts - controller.Value().budget.attempts
      {
        ghost var idle := controller.Value();
        TimedIterateCounts(cfg, idle, all(rows));
        TimedIterateKept(cfg, idle, all(rows));
        var result, called, plan := RunOnce(controller, operation, script(rows));
        assert TimedIterator(cfg)(idle, all(rows)) == TimedIterate(cfg, idle, AsTimed(cancellable, script(rows)));
        rows := rows + 1;
        calls := if called then calls + 1 else calls;
        if result.Some? {
          return result.value, rows, calls, controller.Value();
        }
      }
    }

    /** Runs the loop and then notifies every completion observer once, without changing the result. */
    method Run(startedAt: Instant, script: nat -> WorkerRow, observers: CompletionObservers)
        returns (outcome: Outcome, rows: nat, calls: nat, ghost flow: Flow)
      requires ValidLimits(cfg.limits)
      modifies observers
      ensures var e := TimedFrom(cfg, Start(cfg, startedAt), AllTimed(cancellable, script), 0, 0);
              flow == e.flow && rows == e.rows && calls == e.calls
              && outcome == Outcome(e.terminal, Diagnostics(observers.outcomes))
      ensures observers.log ==
                old(observers.log) + Notifications(|observers.outcomes|, outcome.terminal, |flow.trace|)
    {
      var terminal;
      terminal, rows, calls, flow := RunInner(startedAt, script);
      outcome := Complete(terminal, observers, |flow.trace|);
    }
  }
}
