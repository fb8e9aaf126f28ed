/**
 The loop shared by the asynchronous and the worker facade: every attempt has a prepared
 hard deadline, registered with a timer before admission, and may end in more ways than by
 returning.
 */
module TimedLoop {
  import opened Options
  import opened Time
  import opened Accounting
  import opened FlowModel
  import opened FlowDeadlines
  import opened FlowRuns
  import opened Driving
  import opened RetryLoop

  datatype Cause = CancellationCause | TimeoutCause | TimerCause

  /** How an admitted attempt ends; `keepsAttempt` is whether the terminal context still names it. */
  datatype AttemptEnd =
    | Returned(value: int)
    | Errored(code: int)
    | Unwound
    | Expired
    | StopRequested
    | TimerBroken(keepsAttempt: bool)
    | ChannelLost
    | LeftRunning(cause: Cause)

  /** `registration` and `spawn` are the clock samples of a failed timer registration or thread spawn. */
  datatype TimedRow = TimedRow(
    before: BeforeInputs,
    registration: Option<Instant>,
    spawn: Option<Instant>,
    commit: Boundary,
    end: AttemptEnd,
    finished: Instant,
    failure: FailureInputs,
    wait: Waits)

  /** The scope registered with the timer; without a timer no timeout can fire. */
  function ScopeOf(timeout: Option<Timeout>): Scope { if timeout.Some? then timeout.value.scope else FlowScope }

  function TriggerOf(cause: Cause, scope: Scope): StopTrigger {
    match cause
    case CancellationCause => OnCancellation
    case TimeoutCause => if scope.AttemptScope? then OnAttemptTimeout else OnFlowTimeout
    case TimerCause => OnTimerFailure
  }

  /** Timer registration and thread spawn, both before the attempt is counted. */
  function SetUp(f: Flow, timeout: Option<Timeout>, registration: Option<Instant>, spawn: Option<Instant>): Step<()> {
    if timeout.Some? && registration.Some? then InfrastructureStop(ClearOverlay(f), TimerFailed, registration.value)
    else if spawn.Some? then InfrastructureStop(ClearOverlay(f), WorkerSpawnFailed, spawn.value)
    else Go(f, ())
  }

  /** From the announced attempt to its admission: prepare the deadline, set up, commit. */
  function Release(cfg: Config, f: Flow, now: Instant, row: TimedRow): (s: Step<Option<Timeout>>)
    ensures s.Go? ==> s.flow.budget.active.Some?
  {
    match PrepareAttemptStep(cfg, f, now)
    case Stop(g, e) => Stop(g, e)
    case Go(g, timeout) =>
      match SetUp(g, timeout, row.registration, row.spawn)
      case Stop(h, e) => Stop(h, e)
      case Go(h, _) =>
        match CommitStep(cfg, h, timeout, row.commit)
        case Stop(k, e) => Stop(k, e)
        case Go(k, _) => Go(k, timeout)
  }

  function TimedAdmit(cfg: Config, f: Flow, row: TimedRow): (s: Step<Option<Timeout>>)
    ensures s.Go? ==> s.flow.budget.active.Some?
  {
    match BeforeAttemptStep(cfg, f, row.before)
    case Stop(g, e) => Stop(g, e)
    case Go(g, now) => Release(cfg, g, now, row)
  }

  /** The attempt failure an end amounts to, if it is one. */
  function FailureOf(end: AttemptEnd, timeout: Option<Timeout>): Option<Failure> {
    match end
    case Errored(code) => Some(AppError(code))
    case Unwound => Some(AttemptPanicked)
    case Expired => Some(AttemptTimedOut(ScopeOf(timeout)))
    case _ => None
  }

  predicate IsFailure(end: AttemptEnd) { end.Errored? || end.Unwound? || end.Expired? }

  /** Ends that are neither a result nor an attempt failure stop the flow. */
  function Interrupted(f: Flow, end: AttemptEnd, timeout: Option<Timeout>, now: Instant): Step<()>
    requires f.budget.active.Some? && !end.Returned? && FailureOf(end, timeout).None?
  {
    match end
    case StopRequested => AttemptCancelledStop(f, now)
    case TimerBroken(keeps) => InfrastructureStop(if keeps then f else ClearOverlay(f), TimerFailed, now)
    case ChannelLost => InfrastructureStop(f, WorkerChannelClosed, now)
    case LeftRunning(cause) => InfrastructureStop(f, WorkerStillRunning(TriggerOf(cause, ScopeOf(timeout))), now)
  }

  function TimedSettle(cfg: Config, f: Flow, timeout: Option<Timeout>, row: TimedRow): Followup
    requires f.budget.active.Some?
  {
    if row.end.Returned? then Settle(cfg, f, Ok(row.end.value), row.finished, row.failure)
    else match FailureOf(row.end, timeout)
      case Some(failure) =>
        (match RecordFailureStep(cfg, f, failure, row.failure)
         case Go(g, plan) => Again(g, plan)
         case Stop(g, e) => Done(g, Failure(e)))
      case None =>
        var s := Interrupted(f, row.end, timeout, row.finished);
        assert s.Stop?;
        Done(s.flow, Failure(s.error))
  }

  /** What the loop makes of an admitted attempt. */
  function Settled(cfg: Config, f: Flow, timeout: Option<Timeout>, row: TimedRow): Iteration
    requires f.budget.active.Some?
  {
    match TimedSettle(cfg, f, timeout, row)
    case Done(g, t) => Last(g, t, true)
    case Again(g, plan) => AfterWait(g, plan, WaitOf(row.wait, plan))
  }

  function TimedIterate(cfg: Config, f: Flow, row: TimedRow): Iteration {
    match TimedAdmit(cfg, f, row)
    case Stop(g, e) => Last(g, Failure(e), false)
    case Go(g, timeout) => Settled(cfg, g, timeout, row)
  }

  function TimedIterator(cfg: Config): (Flow, TimedRow) -> Iteration {
    (f: Flow, row: TimedRow) => TimedIterate(cfg, f, row)
  }

  // --- Attempt counting -----------------------------------------------------------------------------

  lemma ReleaseCounts(cfg: Config, f: Flow, now: Instant, row: TimedRow)
    ensures var s := Release(cfg, f, now, row);
            && s.flow.budget.limits == f.budget.limits
            && s.flow.budget.attempts == f.budget.attempts + (if s.Go? then 1 else 0)
  {
    assert SameCount(f, PrepareAttemptStep(cfg, f, now).flow);
  }

  lemma TimedAdmissionCounts(cfg: Config, f: Flow, row: TimedRow)
    ensures var s := TimedAdmit(cfg, f, row);
            && s.flow.budget.limits == f.budget.limits
            && s.flow.budget.attempts == f.budget.attempts + (if s.Go? then 1 else 0)
  {
    BeforeCounts(cfg, f, row.before);
    var announced := BeforeAttemptStep(cfg, f, row.before);
    if announced.Go? {
      ReleaseCounts(cfg, announced.flow, announced.value, row);
    }
  }

  lemma TimedSettlingCounts(cfg: Config, f: Flow, timeout: Option<Timeout>, row: TimedRow)
    requires f.budget.active.Some?
    ensures var s := TimedSettle(cfg, f, timeout, row);
            && SameCount(f, s.flow)
            && (s.Again? ==> FailureOf(row.end, timeout).Some? && f.budget.attempts < f.budget.limits.maxAttempts)
            && (s.Done? && s.terminal.Success? ==> row.end == Returned(s.terminal.value))
  {
    if row.end.Returned? {
      SettlingCounts(cfg, f, Ok(row.end.value), row.finished, row.failure);
    } else if FailureOf(row.end, timeout).Some? {
      RecordingCounts(cfg, f, FailureOf(row.end, timeout).value, row.failure);
    } else {
      assert SameCount(f, Interrupted(f, row.end, timeout, row.finished).flow);
    }
  }

  /** Only an attempt failure leads on, and only a returned value to success. */
  lemma SettledCounts(cfg: Config, f: Flow, timeout: Option<Timeout>, row: TimedRow)
    requires f.budget.active.Some?
    ensures var i := Settled(cfg, f, timeout, row);
            && SameCount(f, i.flow)
            && (i.Continue? ==> IsFailure(row.end) && f.budget.attempts < f.budget.limits.maxAttempts)
            && (i.Last? ==> i.called && (i.terminal.Success? ==> row.end == Returned(i.terminal.value)))
  {
    TimedSettlingCounts(cfg, f, timeout, row);
    var settled := TimedSettle(cfg, f, timeout, row);
    if settled.Again? {
      AfterWaitCounts(settled.flow, settled.plan, WaitOf(row.wait, settled.plan));
    }
  }

  lemma TimedIterateCounts(cfg: Config, f: Flow, row: TimedRow)
    ensures Counted(f, TimedIterate(cfg, f, row))
    ensures var i := TimedIterate(cfg, f, row); i.Last? && i.terminal.Success? ==> row.end == Returned(i.terminal.value)
  {
    TimedAdmissionCounts(cfg, f, row);
    var admitted := TimedAdmit(cfg, f, row);
    if admitted.Go? {
      SettledCounts(cfg, admitted.flow, admitted.value, row);
    }
  }

  lemma TimedCounting(cfg: Config)
    ensures Counting(TimedIterator(cfg))
  {
    forall f: Flow, row: TimedRow ensures Counted(f, TimedIterator(cfg)(f, row)) {
      TimedIterateCounts(cfg, f, row);
    }
  }

  ghost function TimedFrom(cfg: Config, f: Flow, script: nat -> TimedRow, rows: nat, calls: nat): Ending {
    TimedCounting(cfg);
    Drive(TimedIterator(cfg), f, script, rows, calls)
  }

  // --- Invariants of the loop -------------------------------------------------------------------------

  lemma SetUpKept(cfg: Config, f: Flow, timeout: Option<Timeout>, registration: Option<Instant>, spawn: Option<Instant>)
    requires FlowInv(cfg, f)
    ensures Kept(cfg, SetUp(f, timeout, registration, spawn))
  {
    Quiet(cfg, f, ClearOverlay(f));
    if registration.Some? { BreakDownKept(cfg, ClearOverlay(f), TimerFailed, registration.value); }
    if spawn.Some? { BreakDownKept(cfg, ClearOverlay(f), WorkerSpawnFailed, spawn.value); }
  }

  lemma ReleaseKept(cfg: Config, f: Flow, row: TimedRow)
    requires FlowInv(cfg, f) && Open(cfg, f)
    ensures var s := Release(cfg, f, f.budget.sampledAt, row);
             Kept(cfg, s) && (s.Go? ==> StateInv(cfg, State(s.flow, Active)))
  {
    PreparedPlanCoherent(cfg, f);
    var prepared := PrepareAttemptStep(cfg, f, f.budget.sampledAt);
    SilentKept(cfg, f, prepared);
    if prepared.Go? {
      SetUpKept(cfg, prepared.flow, prepared.value, row.registration, row.spawn);
      CommitKept(cfg, prepared.flow, prepared.value, row.commit);
    }
  }

  lemma TimedAdmitKept(cfg: Config, f: Flow, row: TimedRow)
    requires Idle(cfg, f)
    ensures var s := TimedAdmit(cfg, f, row); Kept(cfg, s) && (s.Go? ==> StateInv(cfg, State(s.flow, Active)))
  {
    BeforeKept(cfg, f, row.before);
    var announced := BeforeAttemptStep(cfg, f, row.before);
    if announced.Go? {
      ReleaseKept(cfg, announced.flow, row);
    }
  }

  lemma InterruptedKept(cfg: Config, f: Flow, end: AttemptEnd, timeout: Option<Timeout>, now: Instant)
    requires FlowInv(cfg, f) && f.budget.active.Some? && !end.Returned? && FailureOf(end, timeout).None?
    ensures Kept(cfg, Interrupted(f, end, timeout, now)) && Interrupted(f, end, timeout, now).Stop?
  {
    match end
    case StopRequested => CancelledAttemptKept(cfg, f, now);
    case TimerBroken(keeps) =>
      Quiet(cfg, f, ClearOverlay(f));
      BreakDownKept(cfg, if keeps then f else ClearOverlay(f), TimerFailed, now);
    case ChannelLost => BreakDownKept(cfg, f, WorkerChannelClosed, now);
    case LeftRunning(cause) => BreakDownKept(cfg, f, WorkerStillRunning(TriggerOf(cause, ScopeOf(timeout))), now);
  }

  lemma TimedSettleKept(cfg: Config, f: Flow, timeout: Option<Timeout>, row: TimedRow)
    requires StateInv(cfg, State(f, Active))
    ensures var s := TimedSettle(cfg, f, timeout, row);
            && (s.Done? ==> Concluded(cfg, s.flow, s.terminal))
            && (s.Again? ==>
                  Idle(cfg, s.flow) && WaitingInv(cfg, s.flow, s.plan)
                  && s.flow.budget.sampledAt.at <= s.plan.deadline.at)
  {
    if row.end.Returned? {
      SettleKept(cfg, f, Ok(row.end.value), row.finished, row.failure);
    } else if FailureOf(row.end, timeout).Some? {
      RecordFailureKept(cfg, f, FailureOf(row.end, timeout).value, row.failure);
    } else {
      InterruptedKept(cfg, f, row.end, timeout, row.finished);
    }
  }

  lemma TimedIterateKept(cfg: Config, f: Flow, row: TimedRow)
    requires Idle(cfg, f)
    ensures var i := TimedIterate(cfg, f, row);
            && (i.Last? ==> Concluded(cfg, i.flow, i.terminal))
            && (i.Continue? ==> Idle(cfg, i.flow) && WaitingInv(cfg, i.flow, i.plan)
                                && i.flow.budget.sampledAt.at <= i.plan.deadline.at)
  {
    TimedAdmitKept(cfg, f, row);
    var admitted := TimedAdmit(cfg, f, row);
    if admitted.Go? {
      TimedSettleKept(cfg, admitted.flow, admitted.value, row);
      var settled := TimedSettle(cfg, admitted.flow, admitted.value, row);
      if settled.Again? && !WaitOf(row.wait, settled.plan).Elapsed? {
        EndWaitKept(cfg, settled.flow, WaitOf(row.wait, settled.plan));
      }
    }
  }

  lemma TimedConcludes(cfg: Config, f: Flow, script: nat -> TimedRow, rows: nat, calls: nat)
    requires Idle(cfg, f)
    ensures var e := TimedFrom(cfg, f, script, rows, calls); Concluded(cfg, e.flow, e.terminal)
  {
    var step := TimedIterator(cfg);
    TimedCounting(cfg);
    var inv, done := (g: Flow) => Idle(cfg, g), (row: TimedRow, g: Flow, t: Terminal) => Concluded(cfg, g, t);
    forall g: Flow, row: TimedRow | inv(g)
      ensures Carried(step(g, row), row, inv, done)
    {
      TimedIterateKept(cfg, g, row);
    }
    DriveKeeps(step, f, script, rows, calls, inv, done);
  }

  lemma TimedSucceeds(cfg: Config, f: Flow, script: nat -> TimedRow)
    ensures var e := TimedFrom(cfg, f, script, 0, 0);
            0 < e.rows && (e.terminal.Success? ==> script(e.rows - 1).end == Returned(e.terminal.value))
  {
    var step := TimedIterator(cfg);
    TimedCounting(cfg);
    var produced := (row: TimedRow, value: int) => row.end == Returned(value);
    forall g: Flow, row: TimedRow | step(g, row).Last? && step(g, row).terminal.Success?
      ensures produced(row, step(g, row).terminal.value)
    {
      TimedIterateCounts(cfg, g, row);
    }
    DriveSucceeds(step, f, script, 0, 0, produced);
  }

  /**
   A run with hard deadlines ends within the attempt limit, counts its operations, and succeeds
   only with its last attempt's value.
   */
  lemma TimedRunSound(cfg: Config, startedAt: Instant, script: nat -> TimedRow)
    requires ValidLimits(cfg.limits)
    ensures var e := TimedFrom(cfg, Start(cfg, startedAt), script, 0, 0);
            && 1 <= e.rows <= cfg.limits.maxAttempts
            && e.calls == TerminalContext(e.terminal).attempts == Admissions(e.flow.trace)
            && (e.terminal.Success? ==> script(e.rows - 1).end == Returned(e.terminal.value))
  {
    var f := Start(cfg, startedAt);
    StartIdle(cfg, startedAt);
    TimedConcludes(cfg, f, script, 0, 0);
    TimedSucceeds(cfg, f, script);
    TimedCounting(cfg);
    DriveBounded(TimedIterator(cfg), f, script, 0, 0);
    DriveCounts(TimedIterator(cfg), f, script, 0, 0);
  }

  /** The same for a facade that derives the ends of its attempts from rows of its own. */
  lemma LastEndDecides<R>(cfg: Config, startedAt: Instant, script: nat -> TimedRow, rows: nat -> R,
      endOf: R -> AttemptEnd)
    requires ValidLimits(cfg.limits) && forall k :: script(k).end == endOf(rows(k))
    ensures var e := TimedFrom(cfg, Start(cfg, startedAt), script, 0, 0);
            && 1 <= e.rows <= cfg.limits.maxAttempts
            && (e.terminal.Success? ==> endOf(rows(e.rows - 1)) == Returned(e.terminal.value))
  {
    TimedRunSound(cfg, startedAt, script);
  }

  // --- Agreement with the same-thread facade -------------------------------------------------------------

  /** A row of the same-thread facade, for a facade that could also have been interrupted. */
  function Lift(row: Row): TimedRow {
    TimedRow(row.before, None, None, row.commit,
             match row.operation case Ok(value) => Returned(value) case Err(code) => Errored(code),
             row.finished, row.failure, row.wait)
  }

  function Lifted(script: nat -> Row): nat -> TimedRow { (k: nat) => Lift(script(k)) }

  /** Before the first announcement, or after the overlay was cleared, no hard timeout is on record. */
  lemma NoTimeoutOnRecord(cfg: Config, f: Flow, before: BeforeInputs)
    ensures var s := BeforeAttemptStep(cfg, f, before); s.Go? ==> s.flow.hardTimeout.None?
  {
    var g := EnterAttempt(At(f, before.entry.now));
    assert var s := NotifyBefore(cfg, g, before); s.Go? ==> s.flow.hardTimeout == g.hardTimeout;
  }

  lemma ReleaseUntimed(cfg: Config, f: Flow, now: Instant, row: Row)
    requires !Timed(cfg) && f.hardTimeout.None?
    ensures var s, t := Release(cfg, f, now, Lift(row)), CommitStep(cfg, f, None, row.commit);
            && s.Go? == t.Go? && s.flow == t.flow
            && (if s.Go? then s.value == None else s.error == t.error)
  {
    assert PrepareAttemptStep(cfg, f, now) == Go(f, None);
  }

  lemma IterationsAgree(cfg: Config, f: Flow, row: Row)
    requires !Timed(cfg)
    ensures TimedIterate(cfg, f, Lift(row)) == Iterate(cfg, f, row)
  {
    NoTimeoutOnRecord(cfg, f, row.before);
    var announced := BeforeAttemptStep(cfg, f, row.before);
    if announced.Go? {
      ReleaseUntimed(cfg, announced.flow, announced.value, row);
    }
  }

  /**
   Without hard timeouts, and while operations simply return, the facades are interchangeable:
   same terminal result, same trace, same number of operations.
   */
  lemma {:induction false} FacadesAgree(cfg: Config, f: Flow, script: nat -> Row, rows: nat, calls: nat)
    requires !Timed(cfg)
    ensures TimedFrom(cfg, f, Lifted(script), rows, calls) == LoopFrom(cfg, f, script, rows, calls)
    decreases AttemptsLeft(f)
  {
    TimedCounting(cfg);
    IteratorCounting(cfg);
    IterationsAgree(cfg, f, script(rows));
    var i := TimedIterator(cfg)(f, Lifted(script)(rows));
    assert i == Iterator(cfg)(f, script(rows));
    LaterRowsCounted(TimedIterator(cfg), f, Lifted(script)(rows));
    if i.Continue? {
      FacadesAgree(cfg, i.flow, script, rows + 1, calls + 1);
    }
  }
}
