/**
 The steps of a timed attempt on a mutable controller, shared by the asynchronous and the
 worker facade.
 */
module TimedSteps {
  import opened Options
  import opened Time
  import opened FlowModel
  import opened FlowController
  import opened Driving
  import opened RetryLoop
  import opened RetryFacade
  import opened TimedLoop

  method TryRelease(controller: RetryFlowController, admission: Instant, row: TimedRow)
      returns (r: Result<Option<Timeout>, RetryError>)
    requires controller.Valid() && controller.Value().budget.active.None?
    modifies controller.Repr()
    ensures controller.Valid()
    ensures Performs(r, controller.Value(), Release(controller.state.cfg, old(controller.Value()), admission, row))
  {
    var prepared := controller.PrepareAttempt(admission);
    if prepared.Err? {
      return Err(prepared.error);
    }
    var timeout := prepared.value;
    if timeout.Some? && row.registration.Some? {
      var e := controller.RecordInactiveInfrastructureFailure(TimerFailed, row.registration.value);
      return Err(e);
    }
    if row.spawn.Some? {
      var e := controller.RecordInactiveInfrastructureFailure(WorkerSpawnFailed, row.spawn.value);
      return Err(e);
    }
    var committed := controller.CommitPreparedAttempt(timeout, row.commit);
    if committed.Err? {
      return Err(committed.error);
    }
    return Ok(timeout);
  }

  method TryTimedAdmit(controller: RetryFlowController, row: TimedRow) returns (r: Result<Option<Timeout>, RetryError>)
    requires controller.Valid() && controller.Value().budget.active.None?
    modifies controller.Repr()
    ensures controller.Valid()
    ensures Performs(r, controller.Value(), TimedAdmit(controller.state.cfg, old(controller.Value()), row))
  {
    BeforeLeavesInactive(controller.state.cfg, controller.Value(), row.before);
    var announced := controller.BeforeAttempt(row.before);
    if announced.Err? {
      return Err(announced.error);
    }
    r := TryRelease(controller, announced.value, row);
  }

  method Interrupt(controller: RetryFlowController, end: AttemptEnd, timeout: Option<Timeout>, now: Instant)
      returns (e: RetryError)
    requires controller.Valid() && controller.Value().budget.active.Some? && !end.Returned?
             && FailureOf(end, timeout).None?
    modifies controller.Repr()
    ensures controller.Valid()
    ensures Stop(controller.Value(), e) == Interrupted(old(controller.Value()), end, timeout, now)
  {
    match end {
      case StopRequested => e := controller.RecordAttemptCancellation(now);
      case TimerBroken(keeps) =>
        if keeps {
          e := controller.RecordActiveInfrastructureFailure(TimerFailed, now);
        } else {
          e := controller.RecordInactiveInfrastructureFailure(TimerFailed, now);
        }
      case ChannelLost => e := controller.RecordActiveInfrastructureFailure(WorkerChannelClosed, now);
      case LeftRunning(cause) =>
        e := controller.RecordActiveInfrastructureFailure(WorkerStillRunning(TriggerOf(cause, ScopeOf(timeout))), now);
    }
  }

  /** Accounts for the end of the admitted attempt; a planned retry is returned as its plan. */
  method SettleAttempt(controller: RetryFlowController, timeout: Option<Timeout>, row: TimedRow)
      returns (r: Result<Plan, Terminal>)
    requires controller.Valid() && controller.Value().budget.active.Some?
    modifies controller.Repr()
    ensures controller.Valid()
    ensures TimedSettle(controller.state.cfg, old(controller.Value()), timeout, row) ==
              match r case Ok(plan) => Again(controller.Value(), plan) case Err(t) => Done(controller.Value(), t)
    ensures r.Ok? ==> IsFailure(row.end)
  {
    if row.end.Returned? {
      SettlingCounts(controller.state.cfg, controller.Value(), Ok(row.end.value), row.finished, row.failure);
      r := Conclude(controller, Ok(row.end.value), row.finished, row.failure);
      return;
    }
    var failure := FailureOf(row.end, timeout);
    if failure.Some? {
      var recorded := controller.RecordFailure(failure.value, row.failure);
      return match recorded case Ok(plan) => Ok(plan) case Err(e) => Err(Failure(e));
    }
    var e := Interrupt(controller, row.end, timeout, row.finished);
    return Err(Failure(e));
  }
}
