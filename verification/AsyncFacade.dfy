/**
 The asynchronous facade: the timed loop over operations that are polled as futures.
 */
module AsyncFacade {
  import opened Options
  import opened Time
  import opened Accounting
  import opened Callbacks
  import opened FlowModel
  import opened FlowDeadlines
  import opened FlowController
  import opened Driving
  import opened RetryLoop
  import opened RetryFacade
  import opened Completion
  import opened TimedLoop
  import opened TimedSteps
  import Selection

  /**
   Everything the environment answers during one iteration. The poll cycles are followed by one
   in which the operation returns its result, unless they were already decided.
   */
  datatype AsyncRow = AsyncRow(
    before: BeforeInputs,
    registration: Option<Instant>,
    commit: Boundary,
    polls: seq<Selection.Readiness>,
    result: Result<int, int>,
    finished: Instant,
    failure: FailureInputs,
    wait: Selection.WaitScript,
    waitEnded: Instant)

  function EndOf(outcome: Selection.AttemptOutcome): AttemptEnd {
    match outcome
    case Completed(Ok(value)) => Returned(value)
    case Completed(Err(code)) => Errored(code)
    case Cancelled => StopRequested
    case TimedOut => Expired
    case TimerFailed => TimerBroken(true)
  }

  /** What the attempt comes to; only a configured timeout has a timer to poll. */
  function OutcomeOf(cfg: Config, cancellable: bool, row: AsyncRow): Selection.AttemptOutcome {
    Selection.Decided(row.polls, row.result, Timed(cfg), cancellable)
  }

  /** What an asynchronous wait comes to whose timer fires at last. */
  function AsyncWaits(s: Selection.WaitScript, now: Instant, cancellable: bool): Waits {
    Selection.FiringNeverPends(s, cancellable);
    Waits(WaitFrom(Selection.AsyncWait(Selection.Firing(s), true, cancellable), now),
          WaitFrom(Selection.AsyncWait(Selection.Firing(s), false, cancellable), now))
  }

  /** No thread is spawned. */
  function WithOutcome(row: AsyncRow, cancellable: bool, outcome: Selection.AttemptOutcome): TimedRow {
    TimedRow(row.before, row.registration, None, row.commit, EndOf(outcome), row.finished, row.failure,
             AsyncWaits(row.wait, row.waitEnded, cancellable))
  }

  function AsTimed(cfg: Config, cancellable: bool, row: AsyncRow): TimedRow {
    WithOutcome(row, cancellable, OutcomeOf(cfg, cancellable, row))
  }

  function AllTimed(cfg: Config, cancellable: bool, script: nat -> AsyncRow): nat -> TimedRow {
    (k: nat) => AsTimed(cfg, cancellable, script(k))
  }

  /** A timeout is registered exactly when one is configured. */
  lemma TimerIffTimed(cfg: Config, f: Flow, now: Instant, row: TimedRow)
    ensures Release(cfg, f, now, row).Go? ==> (Release(cfg, f, now, row).value.Some? <==> Timed(cfg))
  {
  }

  lemma AdmittedIffTimed(cfg: Config, f: Flow, row: TimedRow)
    ensures TimedAdmit(cfg, f, row).Go? ==> (TimedAdmit(cfg, f, row).value.Some? <==> Timed(cfg))
  {
    var announced := BeforeAttemptStep(cfg, f, row.before);
    if announced.Go? {
      TimerIffTimed(cfg, announced.flow, announced.value, row);
    }
  }

  lemma OnlyCompletionReturns(outcome: Selection.AttemptOutcome, value: int)
    ensures EndOf(outcome) == Returned(value) <==> outcome == Selection.Completed(Ok(value))
  {
  }

  /** The value of a successful run is the one that polling its last attempt selected. */
  lemma AsyncSucceedsWithLastValue(cfg: Config, cancellable: bool, startedAt: Instant, script: nat -> AsyncRow)
    requires ValidLimits(cfg.limits)
    ensures var e := TimedFrom(cfg, Start(cfg, startedAt), AllTimed(cfg, cancellable, script), 0, 0);
            && 1 <= e.rows <= cfg.limits.maxAttempts
            && (e.terminal.Success? ==>
                  OutcomeOf(cfg, cancellable, script(e.rows - 1)) == Selection.Completed(Ok(e.terminal.value)))
  {
    var endOf := (row: AsyncRow) => EndOf(OutcomeOf(cfg, cancellable, row));
    LastEndDecides(cfg, startedAt, AllTimed(cfg, cancellable, script), script, endOf);
    var e := TimedFrom(cfg, Start(cfg, startedAt), AllTimed(cfg, cancellable, script), 0, 0);
    if e.terminal.Success? {
      OnlyCompletionReturns(OutcomeOf(cfg, cancellable, script(e.rows - 1)), e.terminal.value);
    }
  }

  class AsyncRetry {
    const cfg: Config
    const cancellable: bool

    constructor (cfg: Config, cancellable: bool)
      ensures this.cfg == cfg && this.cancellable == cancellable
    {
      this.cfg := cfg;
      this.cancellable := cancellable;
    }

    method PollAttempt(timed: bool, row: AsyncRow) returns (outcome: Selection.AttemptOutcome)
      ensures timed == Timed(cfg) ==> outcome == OutcomeOf(cfg, cancellable, row)
    {
      outcome := Selection.ExecuteToEnd(timed, cancellable, row.polls, row.result);
    }

    method RunOnce(controller: RetryFlowController, row: AsyncRow)
        returns (terminal: Option<Terminal>, called: bool, ghost plan: Plan)
      requires controller.Valid() && controller.state.cfg == cfg && controller.Value().budget.active.None?
      modifies controller.Repr()
      ensures controller.Valid()
      ensures TimedIterate(cfg, old(controller.Value()), AsTimed(cfg, cancellable, row)) ==
                match terminal
                case Some(t) => Last(controller.Value(), t, called)
                case None => Continue(controller.Value(), plan)
      ensures terminal.None? ==> called
    {
      plan := Plan(row.finished, true);
      ghost var idle := controller.Value();
      var admitted := TryTimedAdmit(controller, AsTimed(cfg, cancellable, row));
      if admitted.Err? {
        return Some(Failure(admitted.error)), false, plan;
      }
      called := true;
      AdmittedIffTimed(cfg, idle, AsTimed(cfg, cancellable, row));
      var outcome := PollAttempt(admitted.value.Some?, row);
      var settled := SettleAttempt(controller, admitted.value, WithOutcome(row, cancellable, outcome));
      if settled.Err? {
        return Some(settled.error), called, plan;
      }
      plan := settled.value;
      var waited := Selection.Sleep(Selection.Firing(row.wait), settled.value.immediate, cancellable);
      Selection.FiringNeverPends(row.wait, cancellable);
      var ended := AwaitRetry(controller, WaitFrom(waited, row.waitEnded));
      return if ended.Some? then Some(Failure(ended.value)) else None, called, plan;
    }

    method RunInner(startedAt: Instant, script: nat -> AsyncRow)
        returns (terminal: Terminal, rows: nat, calls: nat, ghost flow: Flow)
      requires ValidLimits(cfg.limits)
      ensures var e := TimedFrom(cfg, Start(cfg, startedAt), AllTimed(cfg, cancellable, script), 0, 0);
              terminal == e.terminal && rows == e.rows && calls == e.calls
      ensures flow == TimedFrom(cfg, Start(cfg, startedAt), AllTimed(cfg, cancellable, script), 0, 0).flow
    {
      ghost var all := AllTimed(cfg, cancellable, script);
      var controller := new RetryFlowController(startedAt, cfg);
      StartIdle(cfg, startedAt);
      TimedCounting(cfg);
      rows, calls := 0, 0;
      while true
        invariant controller.Valid() && controller.state.cfg == cfg && fresh(controller.Repr())
        invariant Idle(cfg, controller.Value())
        invariant TimedFrom(cfg, Start(cfg, startedAt), all, 0, 0) ==
                  TimedFrom(cfg, controller.Value(), all, rows, calls)
        decreases controller.Value().budget.limits.maxAttempts - controller.Value().budget.attempts
      {
        ghost var idle := controller.Value();
        TimedIterateCounts(cfg, idle, all(rows));
        TimedIterateKept(cfg, idle, all(rows));
        var result, called, plan := RunOnce(controller, script(rows));
        assert TimedIterator(cfg)(idle, all(rows)) == TimedIterate(cfg, idle, AsTimed(cfg, cancellable, script(rows)));
        rows := rows + 1;
        calls := if called then calls + 1 else calls;
        if result.Some? {
          return result.value, rows, calls, controller.Value();
        }
      }
    }

    /** Runs the loop and then notifies every completion observer once, without changing the result. */
    method Run(startedAt: Instant, script: nat -> AsyncRow, observers: CompletionObservers)
        returns (outcome: Outcome, rows: nat, calls: nat, ghost flow: Flow)
      requires ValidLimits(cfg.limits)
      modifies observers
      ensures var e := TimedFrom(cfg, Start(cfg, startedAt), AllTimed(cfg, cancellable, script), 0, 0);
              flow == e.flow && rows == e.rows && calls == e.calls
              && outcome == Outcome(e.terminal, Diagnostics(observers.outcomes))
      ensures observers.log ==
                old(observers.log) + Notifications(|observers.outcomes|, outcome.terminal, |flow.trace|)
    {
      var terminal;
      terminal, rows, calls, flow := RunInner(startedAt, script);
      outcome := Complete(terminal, observers, |flow.trace|);
    }
  }
}
