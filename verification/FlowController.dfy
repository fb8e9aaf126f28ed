/**
 The mutable flow state and the flow controller.

 Every method performs the program's own sequence of field updates, clock samples and early
 returns; its contract equates the outcome and the whole new state with `FlowModel`.
 */
module FlowController {
  import opened Options
  import opened Time
  import opened Backoff
  import opened Accounting
  import opened Callbacks
  import opened FlowModel

  class RetryFlowState {
    const cfg: Config
    const budget: RetryBudgetState
    const backoff: BackoffState

    ghost predicate Valid()
      reads budget
    {
      budget.Valid() && budget.limits == cfg.limits && backoff.policy == cfg.policy
          && backoff.arithmetic == cfg.arithmetic
    }

    constructor (startedAt: Instant, cfg: Config)
      requires ValidLimits(cfg.limits)
      ensures Valid() && this.cfg == cfg && fresh(budget) && fresh(backoff)
      ensures budget.Value() == Fresh(cfg.limits, startedAt) && backoff.retryIndex == 0
    {
      this.cfg := cfg;
      budget := new RetryBudgetState(startedAt, cfg.limits);
      backoff := new BackoffState(cfg.policy, cfg.arithmetic);
    }

    method FlowTimedOut() returns (expired: bool)
      requires Valid()
      ensures expired <==> cfg.flowTimeout.Some? && TotalElapsed(budget.Value()) >= cfg.flowTimeout.value
    {
      if cfg.flowTimeout.None? {
        return false;
      }
      var s := budget.CurrentSnapshot();
      return s.totalElapsed >= cfg.flowTimeout.value;
    }

    method FlowRemaining() returns (remaining: Option<Duration>)
      requires Valid()
      ensures remaining == if cfg.flowTimeout.None? then None
                           else Some(SaturatingSub(cfg.flowTimeout.value, TotalElapsed(budget.Value())))
    {
      if cfg.flowTimeout.None? {
        return None;
      }
      var s := budget.CurrentSnapshot();
      return Some(SaturatingSub(cfg.flowTimeout.value, s.totalElapsed));
    }

    method FinishForInfrastructure(now: Instant) returns (r: Result<(), TimeError>)
      requires Valid()
      modifies budget
      ensures Valid()
      ensures r.Ok? <==> Coherent(old(budget.Value()), now)
      ensures budget.Value() == if r.Ok? then SettledBudget(old(budget.Value()), now) else old(budget.Value())
    {
      if budget.HasActiveAttempt() {
        r := budget.FinishAttempt(now);
      } else {
        r := budget.Refresh(now);
      }
    }

    method NextBackoff(decision: Decision, draws: Draws) returns (step: BackoffStep)
      requires Valid()
      modifies backoff
      ensures Valid()
      ensures backoff.retryIndex == NextIndex(old(backoff.retryIndex))
      ensures step == StepAt(cfg.policy, cfg.arithmetic, backoff.retryIndex, RequestOf(decision), draws)
    {
      var request := match decision
        case RetryWithHint(d) => Request(Some(d), false)
        case RetryWithJitteredHint(d) => Request(Some(d), true)
        case _ => Request(None, false);
      step := backoff.Next(request, draws);
    }
  }

  /** A method's result and the new state agree with a step of the model. */
  ghost predicate Performs<T>(r: Result<T, RetryError>, after: Flow, step: Step<T>) {
    step == match r case Ok(v) => Go(after, v) case Err(e) => Stop(after, e)
  }

  class RetryFlowController {
    const state: RetryFlowState
    var lastFailure: Option<Failure>
    var currentAttempt: Option<nat>
    var hardTimeout: Option<Duration>
    var nextDelay: Option<Duration>
    var hint: Option<Duration>
    ghost var trace: seq<Event>

    ghost function Repr(): set<object> { {this, state.budget, state.backoff} }

    ghost predicate Valid()
      reads this, state.budget, state.backoff
    {
      state.Valid()
    }

    ghost function Value(): Flow
      reads this, state.budget, state.backoff
    {
      Flow(state.budget.Value(), state.backoff.retryIndex, lastFailure, currentAttempt, hardTimeout, nextDelay, hint,
          trace)
    }

    constructor (startedAt: Instant, cfg: Config)
      requires ValidLimits(cfg.limits)
      ensures Valid() && fresh(Repr()) && state.cfg == cfg
      ensures Value() == Start(cfg, startedAt)
    {
      state := new RetryFlowState(startedAt, cfg);
      lastFailure, currentAttempt, hardTimeout, nextDelay, hint := None, None, None, None, None;
      trace := [];
    }

    method CurrentContext() returns (context: Context)
      requires Valid()
      ensures context == Snapshot(Value())
    {
      var s := state.budget.CurrentSnapshot();
      context := Context(s.attempts, currentAttempt, state.budget.limits, s.operationElapsed, s.totalElapsed,
                         s.attemptElapsed, hardTimeout, nextDelay, hint);
    }

    // --- Terminal errors ------------------------------------------------------------------

    method ClearCurrentAttempt()
      requires Valid()
      modifies this
      ensures Valid() && Value() == ClearOverlay(old(Value()))
    {
      currentAttempt := None;
      hardTimeout := None;
    }

    method FailWith(reason: Reason, context: Context) returns (e: RetryError)
      requires Valid()
      modifies this
      ensures Valid()
      ensures Stop(Value(), e) == StopIn<()>(old(Value()), reason, context)
    {
      e := RetryError(reason, lastFailure, context);
      lastFailure := None;
    }

    method FailCleared(reason: Reason) returns (e: RetryError)
      requires Valid()
      modifies this
      ensures Valid()
      ensures Stop(Value(), e) == StopCleared<()>(old(Value()), reason)
    {
      ClearCurrentAttempt();
      var context := CurrentContext();
      e := FailWith(reason, context);
    }

    method CallbackFailedAfterRefresh(callback: CallbackFailure, fallback: Context, now: Instant)
        returns (e: RetryError)
      requires Valid()
      modifies this, state.budget
      ensures Valid()
      ensures Stop(Value(), e) == CallbackStop<()>(old(Value()), callback, fallback, now)
    {
      var context := fallback;
      var refreshed := state.budget.Refresh(now);
      if refreshed.Ok? {
        context := CurrentContext();
      }
      e := FailWith(CallbackFailed(callback), context);
    }

    // --- Control boundaries -----------------------------------------------------------------

    method RefreshOrError(now: Instant) returns (r: Result<(), RetryError>)
      requires Valid()
      modifies this, state.budget
      ensures Valid()
      ensures Performs(r, Value(),
                if Coherent(old(Value()).budget, now) then Go(At(old(Value()), now), ()) else ClockStop(old(Value())))
    {
      var refreshed := state.budget.Refresh(now);
      if refreshed.Err? {
        var e := FailCleared(InfrastructureFailed(ClockFailed));
        return Err(e);
      }
      return Ok(());
    }

    method RefreshAfterControlCallback(b: Boundary, phase: CancellationPhase) returns (r: Result<Instant, RetryError>)
      requires Valid()
      modifies this, state.budget
      ensures Valid()
      ensures Performs(r, Value(), AfterCallbacks(old(Value()), b, phase))
    {
      var refreshed := RefreshOrError(b.now);
      if refreshed.Err? {
        return Err(refreshed.error);
      }
      if b.cancelled {
        var e := FailCleared(Cancelled(phase));
        return Err(e);
      }
      return Ok(b.now);
    }

    /** Flow timeout, cancellation, continuation limit: in this order. */
    method PassGates(cancelled: bool, phase: CancellationPhase, delay: Duration) returns (r: Result<(), RetryError>)
      requires Valid()
      modifies this
      ensures Valid()
      ensures Performs(r, Value(), Gates(state.cfg, old(Value()), cancelled, phase, delay, ()))
    {
      var expired := state.FlowTimedOut();
      if expired {
        var e := FailCleared(TimedOut(FlowScope));
        return Err(e);
      }
      if cancelled {
        var e := FailCleared(Cancelled(phase));
        return Err(e);
      }
      var limit := state.budget.RetryLimit(delay);
      if limit.Some? {
        var e := FailCleared(Exhausted(limit.value));
        return Err(e);
      }
      return Ok(());
    }

    method CheckBackoffReady(b: Boundary, due: Instant) returns (r: Result<bool, RetryError>)
      requires Valid()
      modifies this, state.budget
      ensures Valid()
      ensures Performs(r, Value(), CheckBackoffStep(old(Value()), b, due))
    {
      var refreshed := RefreshOrError(b.now);
      if refreshed.Err? {
        return Err(refreshed.error);
      }
      if b.cancelled {
        var e := FailCleared(Cancelled(DuringBackoff));
        return Err(e);
      }
      var reached := DeadlineReached(b.now, due);
      if reached.Err? {
        var e := FailCleared(InfrastructureFailed(ClockFailed));
        return Err(e);
      }
      return Ok(reached.value);
    }

    // --- Admission ------------------------------------------------------------------------------

    method BeforeAttempt(inputs: BeforeInputs) returns (r: Result<Instant, RetryError>)
      requires Valid()
      modifies this, state.budget
      ensures Valid()
      ensures Performs(r, Value(), BeforeAttemptStep(state.cfg, old(Value()), inputs))
    {
      var refreshed := RefreshOrError(inputs.entry.now);
      if refreshed.Err? {
        return Err(refreshed.error);
      }
      var gated := PassGates(inputs.entry.cancelled, BeforeAttempts, 0);
      if gated.Err? {
        return Err(gated.error);
      }
      AnnounceAttempt();
      r := NotifyBeforeAttempt(inputs);
    }

    /** Names the next attempt; what the previous one left to report is no longer current. */
    method AnnounceAttempt()
      requires Valid()
      modifies this
      ensures Valid() && Value() == EnterAttempt(old(Value()))
    {
      currentAttempt := Some(if state.budget.attempts < MAX_ATTEMPTS then state.budget.attempts + 1 else MAX_ATTEMPTS);
      hardTimeout := None;
      nextDelay := None;
      hint := None;
    }

    method NotifyBeforeAttempt(inputs: BeforeInputs) returns (r: Result<Instant, RetryError>)
      requires Valid()
      modifies this, state.budget
      ensures Valid()
      ensures Performs(r, Value(), NotifyBefore(state.cfg, old(Value()), inputs))
    {
      var context := CurrentContext();
      var failure, invoked := TryEach(inputs.observers, BeforeAttemptPhase);
      trace := trace + [Event.BeforeAttempt(invoked, context)];
      if failure.Some? {
        var e := CallbackFailedAfterRefresh(failure.value, context, inputs.after.now);
        return Err(e);
      }
      var sampled := RefreshAfterControlCallback(inputs.after, BeforeAttempts);
      if sampled.Err? {
        return Err(sampled.error);
      }
      var gated := PassGates(inputs.cancelledAgain, BeforeAttempts, 0);
      if gated.Err? {
        return Err(gated.error);
      }
      return Ok(sampled.value);
    }

    method SelectedTimeout(now: Instant) returns (r: Result<Option<Timeout>, TimeError>)
      requires Valid()
      ensures r == PrepareTimeout(state.cfg, Value(), now)
    {
      var remaining := state.FlowRemaining();
      var selected := SelectTimeout(state.cfg.attemptTimeout, remaining);
      if selected.None? {
        return Ok(None);
      }
      var (duration, scope) := selected.value;
      match scope {
        case AttemptScope =>
          var deadline := CheckedAdd(now, duration);
          if deadline.Err? {
            return Err(deadline.error);
          }
          return Ok(Some(Timeout(deadline.value, duration, AttemptScope)));
        case FlowScope =>
          var deadline := FlowDeadline(state.cfg, state.budget.startedAt);
          if deadline.Err? {
            return Err(deadline.error);
          }
          assert deadline.value.Some?;  // a flow-scoped timeout requires a configured deadline
          return Ok(Some(Timeout(deadline.value.value, duration, FlowScope)));
      }
    }

    method PrepareAttempt(admission: Instant) returns (r: Result<Option<Timeout>, RetryError>)
      requires Valid()
      modifies this
      ensures Valid()
      ensures Performs(r, Value(), PrepareAttemptStep(state.cfg, old(Value()), admission))
    {
      var timeout := SelectedTimeout(admission);
      if timeout.Err? {
        var e := FailCleared(InfrastructureFailed(ClockFailed));
        return Err(e);
      }
      hardTimeout := if timeout.value.Some? then Some(timeout.value.value.duration) else None;
      return Ok(timeout.value);
    }

    method CommitAttempt(b: Boundary) returns (r: Result<(), RetryError>)
      requires Valid() && state.budget.attemptStartedAt.None?
      modifies this, state.budget
      ensures Valid()
      ensures Performs(r, Value(), CommitStep(state.cfg, old(Value()), None, b))
    {
      var refreshed := RefreshOrError(b.now);
      if refreshed.Err? {
        return Err(refreshed.error);
      }
      var gated := PassGates(b.cancelled, BeforeAttempts, 0);
      if gated.Err? {
        return Err(gated.error);
      }
      state.budget.BeginAttempt(b.now);
      trace := trace + [Admitted(state.budget.attempts, b.now, state.budget.operationElapsed)];
      return Ok(());
    }

    method CommitPreparedAttempt(plan: Option<Timeout>, b: Boundary) returns (r: Result<(), RetryError>)
      requires Valid() && state.budget.attemptStartedAt.None?
      modifies this, state.budget
      ensures Valid()
      ensures Performs(r, Value(), CommitStep(state.cfg, old(Value()), plan, b))
    {
      var refreshed := RefreshOrError(b.now);
      if refreshed.Err? {
        return Err(refreshed.error);
      }
      if plan.Some? {
        var reached := DeadlineReached(b.now, plan.value.deadline);
        if reached.Err? {
          var e := FailCleared(InfrastructureFailed(ClockFailed));
          return Err(e);
        }
        if reached.value {
          var e := FailCleared(TimedOut(plan.value.scope));
          return Err(e);
        }
      }
      var gated := PassGates(b.cancelled, BeforeAttempts, 0);
      if gated.Err? {
        return Err(gated.error);
      }
      state.budget.BeginAttempt(b.now);
      trace := trace + [Admitted(state.budget.attempts, b.now, state.budget.operationElapsed)];
      return Ok(());
    }

    // --- Completion -------------------------------------------------------------------------------

    method FinishSuccess(now: Instant) returns (r: Result<Context, RetryError>)
      requires Valid() && state.budget.attemptStartedAt.Some?
      modifies this, state.budget
      ensures Valid()
      ensures Performs(r, Value(), FinishSuccessStep(old(Value()), now))
    {
      var finished := state.budget.FinishAttempt(now);
      if finished.Err? {
        var e := FailCleared(InfrastructureFailed(ClockFailed));
        return Err(e);
      }
      ClearCurrentAttempt();
      var context := CurrentContext();
      return Ok(context);
    }

    method RecordFailure(failure: Failure, inputs: FailureInputs) returns (r: Result<Plan, RetryError>)
      requires Valid() && state.budget.attemptStartedAt.Some?
      modifies this, state.budget, state.backoff
      ensures Valid()
      ensures Performs(r, Value(), RecordFailureStep(state.cfg, old(Value()), failure, inputs))
    {
      lastFailure := Some(failure);
      var finished := state.budget.FinishAttempt(inputs.completion);
      if finished.Err? {
        var e := FailCleared(InfrastructureFailed(ClockFailed));
        return Err(e);
      }
      r := ConsultAndSchedule(failure, inputs);
    }

    /** The rest of recording a failure, once its duration has been accounted for. */
    method ConsultAndSchedule(failure: Failure, inputs: FailureInputs) returns (r: Result<Plan, RetryError>)
      requires Valid() && lastFailure == Some(failure)
      modifies this, state.budget, state.backoff
      ensures Valid()
      ensures Performs(r, Value(), AfterCompletion(state.cfg, old(Value()), failure, inputs))
    {
      var failedContext := CurrentContext();
      var panic, invoked := TryEach(inputs.failedObservers, AttemptFailedPhase);
      trace := trace + [AttemptFailed(invoked, failure, failedContext)];
      if panic.Some? {
        var e := CallbackFailedAfterRefresh(panic.value, failedContext, inputs.afterFailed.now);
        return Err(e);
      }
      var sampled := RefreshAfterControlCallback(inputs.afterFailed, DuringBackoff);
      if sampled.Err? {
        return Err(sampled.error);
      }
      var decided := DecideRetry(failure, inputs);
      if decided.Err? {
        return Err(decided.error);
      }
      r := ScheduleRetry(decided.value, inputs);
    }

    method DecideRetry(failure: Failure, inputs: FailureInputs) returns (r: Result<Decision, RetryError>)
      requires Valid() && lastFailure == Some(failure)
      modifies this, state.budget
      ensures Valid()
      ensures Performs(r, Value(), Decide(state.cfg, old(Value()), failure, inputs))
    {
      var ruleContext := CurrentContext();
      var verdict, invoked := TryDecide(inputs.rules);
      trace := trace + [RulesConsulted(invoked, failure, ruleContext)];
      if verdict.Err? {
        var e := CallbackFailedAfterRefresh(verdict.error, ruleContext, inputs.afterRules.now);
        return Err(e);
      }
      var sampled := RefreshAfterControlCallback(inputs.afterRules, DuringBackoff);
      if sampled.Err? {
        return Err(sampled.error);
      }
      var decision := verdict.value;
      assert lastFailure.Some?;  // recorded failure must remain available
      if decision.UseDefault? && failure.AttemptTimedOut? {
        var e := FailCleared(TimedOut(failure.scope));
        return Err(e);
      }
      var defaultPanic := decision.UseDefault? && failure.AttemptPanicked?;
      if decision.Abort? || defaultPanic || (decision.UseDefault? && state.cfg.fallback.FallbackAbort?) {
        assert lastFailure.Some?;  // an abort decision always follows an attempt failure
        var e := FailCleared(Aborted);
        return Err(e);
      }
      return Ok(if decision.UseDefault? then Retry else decision);
    }

    method ScheduleRetry(decision: Decision, inputs: FailureInputs) returns (r: Result<Plan, RetryError>)
      requires Valid()
      modifies this, state.budget, state.backoff
      ensures Valid()
      ensures Performs(r, Value(), match Schedule(state.cfg, old(Value()), decision, inputs)
                                   case Stop(k, e) => Stop(k, e)
                                   case Go(k, step) => FixDeadline(state.cfg, k, step, inputs))
    {
      var selected := SelectBackoff(decision, inputs);
      if selected.Err? {
        return Err(selected.error);
      }
      r := PlanBackoff(selected.value, inputs);
    }

    method SelectBackoff(decision: Decision, inputs: FailureInputs) returns (r: Result<BackoffStep, RetryError>)
      requires Valid()
      modifies this, state.budget, state.backoff
      ensures Valid()
      ensures Performs(r, Value(), Schedule(state.cfg, old(Value()), decision, inputs))
    {
      hint := match decision case RetryWithHint(d) => Some(d) case RetryWithJitteredHint(d) => Some(d) case _ => None;
      var step := state.NextBackoff(decision, inputs.draws);
      nextDelay := Some(step.effective);
      assert Value() == old(Value()).(
          retryIndex := NextIndex(old(Value()).retryIndex), hint := HintOf(decision), nextDelay := nextDelay);
      var refreshed := RefreshOrError(inputs.afterBackoff);
      if refreshed.Err? {
        return Err(refreshed.error);
      }
      var gated := PassGates(false, DuringBackoff, step.effective);
      if gated.Err? {
        return Err(gated.error);
      }
      r := AnnounceRetry(step, inputs);
    }

    method AnnounceRetry(step: BackoffStep, inputs: FailureInputs) returns (r: Result<BackoffStep, RetryError>)
      requires Valid()
      modifies this, state.budget
      ensures Valid()
      ensures Performs(r, Value(), Announce(old(Value()), step, inputs))
    {
      var scheduledContext := CurrentContext();
      var panic, invoked := TryEach(inputs.scheduledObservers, ScheduledPhase);
      trace := trace + [RetryScheduled(invoked, step, scheduledContext)];
      if panic.Some? {
        var e := CallbackFailedAfterRefresh(panic.value, scheduledContext, inputs.afterScheduled.now);
        return Err(e);
      }
      ClearCurrentAttempt();
      return Ok(step);
    }

    method PlanBackoff(step: BackoffStep, inputs: FailureInputs) returns (r: Result<Plan, RetryError>)
      requires Valid()
      modifies this, state.budget
      ensures Valid()
      ensures Performs(r, Value(), FixDeadline(state.cfg, old(Value()), step, inputs))
    {
      var sampled := RefreshAfterControlCallback(inputs.afterScheduled, DuringBackoff);
      if sampled.Err? {
        return Err(sampled.error);
      }
      var gated := PassGates(inputs.cancelledAgain, DuringBackoff, step.effective);
      if gated.Err? {
        return Err(gated.error);
      }
      var deadline := BackoffDeadline(state.cfg, state.budget.startedAt, sampled.value, step.effective);
      if deadline.Err? {
        var e := FailCleared(InfrastructureFailed(ClockFailed));
        return Err(e);
      }
      return Ok(Plan(deadline.value, step.effective == 0));
    }

    method RecordActiveInfrastructureFailure(failure: Infrastructure, now: Instant) returns (e: RetryError)
      requires Valid()
      modifies this, state.budget
      ensures Valid()
      ensures Stop(Value(), e) == InfrastructureStop(old(Value()), failure, now)
    {
      var finished := state.FinishForInfrastructure(now);
      var context := CurrentContext();
      e := FailWith(InfrastructureFailed(if finished.Err? then ClockFailed else failure), context);
    }

    method RecordInactiveInfrastructureFailure(failure: Infrastructure, now: Instant) returns (e: RetryError)
      requires Valid()
      modifies this, state.budget
      ensures Valid()
      ensures Stop(Value(), e) == InfrastructureStop(ClearOverlay(old(Value())), failure, now)
    {
      ClearCurrentAttempt();
      var finished := state.FinishForInfrastructure(now);
      var context := CurrentContext();
      e := FailWith(InfrastructureFailed(if finished.Err? then ClockFailed else failure), context);
    }

    method RecordAttemptCancellation(now: Instant) returns (e: RetryError)
      requires Valid() && state.budget.attemptStartedAt.Some?
      modifies this, state.budget
      ensures Valid()
      ensures Stop(Value(), e) == AttemptCancelledStop(old(Value()), now)
    {
      var finished := state.budget.FinishAttempt(now);
      if finished.Err? {
        e := FailCleared(InfrastructureFailed(ClockFailed));
        return;
      }
      var context := CurrentContext();
      e := FailWith(Cancelled(DuringAttempt), context);
    }

    method RecordBackoffCancellation(now: Instant) returns (e: RetryError)
      requires Valid()
      modifies this, state.budget
      ensures Valid()
      ensures Stop(Value(), e) == BackoffCancelledStop(old(Value()), now)
    {
      var refreshed := state.budget.Refresh(now);
      if refreshed.Err? {
        e := FailCleared(InfrastructureFailed(ClockFailed));
        return;
      }
      var context := CurrentContext();
      e := FailWith(Cancelled(DuringBackoff), context);
    }
  }
}
