/**
 The same-thread facade: the steps of an attempt on a mutable controller, and the loop that
 owns one.
 */
module RetryFacade {
  import opened Options
  import opened Time
  import opened Accounting
  import opened Callbacks
  import opened FlowModel
  import opened FlowDeadlines
  import opened FlowController
  import opened Driving
  import opened RetryLoop
  import opened Completion
  import Selection

  // --- The steps on a controller --------------------------------------------------------------

  lemma BeforeLeavesInactive(cfg: Config, f: Flow, before: BeforeInputs)
    requires f.budget.active.None?
    ensures BeforeAttemptStep(cfg, f, before).flow.budget.active.None?
  {
    assert NotifyBefore(cfg, EnterAttempt(At(f, before.entry.now)), before).flow.budget.active.None?;
  }

  method TryAdmit(controller: RetryFlowController, before: BeforeInputs, commit: Boundary)
      returns (r: Result<(), RetryError>)
    requires controller.Valid() && controller.Value().budget.active.None?
    modifies controller.Repr()
    ensures controller.Valid()
    ensures Performs(r, controller.Value(), AdmitStep(controller.state.cfg, old(controller.Value()), before, commit))
  {
    BeforeLeavesInactive(controller.state.cfg, controller.Value(), before);
    var announced := controller.BeforeAttempt(before);
    if announced.Err? {
      return Err(announced.error);
    }
    r := controller.CommitAttempt(commit);
  }

  /** Completes the active operation; a planned retry is returned as its plan. */
  method Conclude(controller: RetryFlowController, operation: Result<int, int>, finished: Instant,
      inputs: FailureInputs)
      returns (r: Result<Plan, Terminal>)
    requires controller.Valid() && controller.Value().budget.active.Some?
    modifies controller.Repr()
    ensures controller.Valid()
    ensures Settle(controller.state.cfg, old(controller.Value()), operation, finished, inputs) ==
              match r case Ok(plan) => Again(controller.Value(), plan) case Err(t) => Done(controller.Value(), t)
  {
    match operation {
      case Ok(value) =>
        var context := controller.FinishSuccess(finished);
        return Err(match context case Ok(c) => Success(value, c) case Err(e) => Failure(e));
      case Err(code) =>
        var planned := controller.RecordFailure(AppError(code), inputs);
        return match planned case Ok(plan) => Ok(plan) case Err(e) => Err(Failure(e));
    }
  }

  /** Waits out a planned retry; a wait that did not elapse ends the run. */
  method AwaitRetry(controller: RetryFlowController, wait: Wait) returns (ended: Option<RetryError>)
    requires controller.Valid()
    modifies controller.Repr()
    ensures controller.Valid()
    ensures ended.None? <==> wait.Elapsed?
    ensures ended.None? ==> controller.Value() == old(controller.Value())
    ensures ended.Some? ==> Stop(controller.Value(), ended.value) == EndWait(old(controller.Value()), wait)
  {
    match wait {
      case Elapsed => return None;
      case WaitCancelled(now) =>
        var e := controller.RecordBackoffCancellation(now);
        return Some(e);
      case WaitTimerFailed(now) =>
        var e := controller.RecordInactiveInfrastructureFailure(TimerFailed, now);
        return Some(e);
    }
  }

  // --- Waiting ------------------------------------------------------------------------------------

  function WaitFrom(waited: Selection.Waited, now: Instant): Wait
    requires !waited.WaitPending?
  {
    match waited
    case WaitElapsed => Elapsed
    case WaitStopped => WaitCancelled(now)
    case WaitBroken => WaitTimerFailed(now)
  }

  /** What a blocking wait comes to whose timer fires at last. */
  function BlockingWaits(s: Selection.WaitScript, now: Instant, cancellable: bool): Waits {
    Selection.FiringNeverPends(s, cancellable);
    Waits(WaitFrom(Selection.BlockingWait(Selection.Firing(s), true, cancellable), now),
          WaitFrom(Selection.BlockingWait(Selection.Firing(s), false, cancellable), now))
  }

  // --- The facade -----------------------------------------------------------------------------------

  /** Everything the environment answers during one iteration; the timer of the wait fires at last. */
  datatype RetryRow = RetryRow(
    before: BeforeInputs,
    commit: Boundary,
    operation: Result<int, int>,
    finished: Instant,
    failure: FailureInputs,
    wait: Selection.WaitScript,
    waitEnded: Instant)

  function AsRow(cancellable: bool, row: RetryRow): Row {
    Row(row.before, row.commit, row.operation, row.finished, row.failure,
        BlockingWaits(row.wait, row.waitEnded, cancellable))
  }

  function AllRows(cancellable: bool, script: nat -> RetryRow): nat -> Row { (k: nat) => AsRow(cancellable, script(k)) }

  class Retry {
    const cfg: Config
    const cancellable: bool

    /** This facade has no hard timeouts. */
    constructor (cfg: Config, cancellable: bool)
      ensures this.cfg == Untimed(cfg) && this.cancellable == cancellable
    {
      this.cfg := Untimed(cfg);
      this.cancellable := cancellable;
    }

    /** The loop body; None means that the wait elapsed and another iteration follows. */
    method RunOnce(controller: RetryFlowController, row: RetryRow)
        returns (terminal: Option<Terminal>, called: bool, ghost plan: Plan)
      requires controller.Valid() && controller.state.cfg == cfg && controller.Value().budget.active.None?
      modifies controller.Repr()
      ensures controller.Valid()
      ensures Iterate(cfg, old(controller.Value()), AsRow(cancellable, row)) ==
                match terminal
                case Some(t) => Last(controller.Value(), t, called)
                case None => Continue(controller.Value(), plan)
      ensures terminal.None? ==> called
    {
      plan := Plan(row.finished, true);
      var admitted := TryAdmit(controller, row.before, row.commit);
      if admitted.Err? {
        return Some(Failure(admitted.error)), false, plan;
      }
      called := true;
      var concluded := Conclude(controller, row.operation, row.finished, row.failure);
      if concluded.Err? {
        return Some(concluded.error), called, plan;
      }
      plan := concluded.value;
      var waited := Selection.WaitForBackoff(Selection.Firing(row.wait), concluded.value.immediate, cancellable);
      Selection.FiringNeverPends(row.wait, cancellable);
      var ended := AwaitRetry(controller, WaitFrom(waited, row.waitEnded));
      return if ended.Some? then Some(Failure(ended.value)) else None, called, plan;
    }

    method RunInner(startedAt: Instant, script: nat -> RetryRow)
        returns (terminal: Terminal, rows: nat, calls: nat, ghost flow: Flow)
      requires ValidLimits(cfg.limits)
      ensures var e := LoopFrom(cfg, Start(cfg, startedAt), AllRows(cancellable, script), 0, 0);
              terminal == e.terminal && rows == e.rows && calls == e.calls
      ensures flow == LoopFrom(cfg, Start(cfg, startedAt), AllRows(cancellable, script), 0, 0).flow
    {
      ghost var all := AllRows(cancellable, script);
      var controller := new RetryFlowController(startedAt, cfg);
      StartIdle(cfg, startedAt);
      IteratorCounting(cfg);
      rows, calls := 0, 0;
      while true
        invariant controller.Valid() && controller.state.cfg == cfg && fresh(controller.Repr())
        invariant Idle(cfg, controller.Value())
        invariant LoopFrom(cfg, Start(cfg, startedAt), all, 0, 0) == LoopFrom(cfg, controller.Value(), all, rows, calls)
        decreases controller.Value().budget.limits.maxAttempts - controller.Value().budget.attempts
      {
        ghost var idle := controller.Value();
        IterateCounts(cfg, idle, all(rows));
        IterateKept(cfg, idle, all(rows));
        var result, called, plan := RunOnce(controller, script(rows));
        assert Iterator(cfg)(idle, all(rows)) == Iterate(cfg, idle, AsRow(cancellable, script(rows)));
        rows := rows + 1;
        calls := if called then calls + 1 else calls;
        if result.Some? {
          return result.value, rows, calls, controller.Value();
        }
      }
    }

    /** Runs the loop and then notifies every completion observer once, without changing the result. */
    method Run(startedAt: Instant, script: nat -> RetryRow, observers: CompletionObservers)
        returns (outcome: Outcome, rows: nat, calls: nat, ghost flow: Flow)
      requires ValidLimits(cfg.limits)
      modifies observers
      ensures var e := LoopFrom(cfg, Start(cfg, startedAt), AllRows(cancellable, script), 0, 0);
              flow == e.flow && rows == e.rows && calls == e.calls
              && outcome == Outcome(e.terminal, Diagnostics(observers.outcomes))
      ensures observers.log ==
                old(observers.log) + Notifications(|observers.outcomes|, outcome.terminal, |flow.trace|)
    {
      var terminal;
      terminal, rows, calls, flow := RunInner(startedAt, script);
      outcome := Complete(terminal, observers, |flow.trace|);
    }
  }
}
