/**
 The same-thread facade: one loop that owns its controller.

 Row `k` of a script holds everything the environment answers during the k-th iteration.
 */
module RetryLoop {
  import opened Options
  import opened Time
  import opened Backoff
  import opened Accounting
  import opened Callbacks
  import opened FlowModel
  import opened FlowRuns
  import opened Driving

  datatype Wait = Elapsed | WaitCancelled(now: Instant) | WaitTimerFailed(now: Instant)

  /** What waiting out a plan comes to, for an immediate one and for one with a deadline. */
  datatype Waits = Waits(immediate: Wait, timed: Wait)

  function WaitOf(waits: Waits, plan: Plan): Wait { if plan.immediate then waits.immediate else waits.timed }

  datatype Row = Row(
    before: BeforeInputs,
    commit: Boundary,
    operation: Result<int, int>,
    finished: Instant,
    failure: FailureInputs,
    wait: Waits)

  /** What follows an operation that returned. */
  datatype Followup = Done(flow: Flow, terminal: Terminal) | Again(flow: Flow, plan: Plan)

  function Settle(cfg: Config, f: Flow, operation: Result<int, int>, finished: Instant, r: FailureInputs): (s: Followup)
    requires f.budget.active.Some?
    ensures s.Done? ==> !s.terminal.Abandoned?
  {
    match operation
    case Ok(value) =>
      (match FinishSuccessStep(f, finished)
       case Go(g, context) => Done(g, Success(value, context))
       case Stop(g, e) => Done(g, Failure(e)))
    case Err(code) =>
      (match RecordFailureStep(cfg, f, AppError(code), r)
       case Go(g, plan) => Again(g, plan)
       case Stop(g, e) => Done(g, Failure(e)))
  }

  /** Before-attempt processing followed by an untimed commit. */
  function AdmitStep(cfg: Config, f: Flow, before: BeforeInputs, commit: Boundary): (s: Step<()>)
    ensures s.Go? ==> s.flow.budget.active.Some?
  {
    match BeforeAttemptStep(cfg, f, before)
    case Stop(g, e) => Stop(g, e)
    case Go(g, _) => CommitStep(cfg, g, None, commit)
  }

  /** A wait that did not simply elapse ends the run. */
  function EndWait(f: Flow, wait: Wait): (s: Step<()>)
    requires !wait.Elapsed?
    ensures s.Stop?
  {
    match wait
    case WaitCancelled(now) => BackoffCancelledStop(f, now)
    case WaitTimerFailed(now) => InfrastructureStop(ClearOverlay(f), TimerFailed, now)
  }

  function Iterate(cfg: Config, f: Flow, row: Row): Iteration {
    match AdmitStep(cfg, f, row.before, row.commit)
    case Stop(g, e) => Last(g, Failure(e), false)
    case Go(g, _) =>
      match Settle(cfg, g, row.operation, row.finished, row.failure)
      case Done(h, t) => Last(h, t, true)
      case Again(h, plan) => AfterWait(h, plan, WaitOf(row.wait, plan))
  }

  /** A wait that elapsed leads to the next iteration. */
  function AfterWait(f: Flow, plan: Plan, wait: Wait): Iteration {
    if wait.Elapsed? then Continue(f, plan) else Last(EndWait(f, wait).flow, Failure(EndWait(f, wait).error), true)
  }

  function Iterator(cfg: Config): (Flow, Row) -> Iteration { (f: Flow, row: Row) => Iterate(cfg, f, row) }

  // --- Attempt counting, for any environment and any flow state -------------------------------

  lemma SchedulingCounts(cfg: Config, f: Flow, decision: Decision, r: FailureInputs)
    ensures SameCount(f, Schedule(cfg, f, decision, r).flow)
  {
  }

  lemma PlanningCounts(cfg: Config, f: Flow, step: BackoffStep, r: FailureInputs)
    ensures var s := FixDeadline(cfg, f, step, r);
             SameCount(f, s.flow) && (s.Go? ==> f.budget.attempts < f.budget.limits.maxAttempts)
  {
  }

  lemma ObservingCounts(f: Flow, failure: Failure, r: FailureInputs)
    ensures SameCount(f, ObserveFailure(f, failure, r).flow)
  {
  }

  lemma DecidingCounts(cfg: Config, f: Flow, failure: Failure, r: FailureInputs)
    ensures SameCount(f, Decide(cfg, f, failure, r).flow)
  {
    DecideSilent(cfg, f, failure, r);
  }

  lemma CompletionCounts(cfg: Config, f: Flow, failure: Failure, r: FailureInputs)
    ensures var s := AfterCompletion(cfg, f, failure, r);
            SameCount(f, s.flow) && (s.Go? ==> f.budget.attempts < f.budget.limits.maxAttempts)
  {
    ObservingCounts(f, failure, r);
    var observed := ObserveFailure(f, failure, r);
    if observed.Go? {
      DecidingCounts(cfg, observed.flow, failure, r);
      var decided := Decide(cfg, observed.flow, failure, r);
      if decided.Go? {
        SchedulingCounts(cfg, decided.flow, decided.value, r);
        var scheduled := Schedule(cfg, decided.flow, decided.value, r);
        if scheduled.Go? {
          PlanningCounts(cfg, scheduled.flow, scheduled.value, r);
        }
      }
    }
  }

  lemma RecordingCounts(cfg: Config, f: Flow, failure: Failure, r: FailureInputs)
    requires f.budget.active.Some?
    ensures var s := RecordFailureStep(cfg, f, failure, r);
            SameCount(f, s.flow) && (s.Go? ==> f.budget.attempts < f.budget.limits.maxAttempts)
  {
    if Coherent(f.budget, r.completion) {
      CompletionCounts(cfg, Failed(f, failure, r.completion), failure, r);
    }
  }

  lemma SettlingCounts(cfg: Config, f: Flow, operation: Result<int, int>, finished: Instant, r: FailureInputs)
    requires f.budget.active.Some?
    ensures var s := Settle(cfg, f, operation, finished, r);
            && SameCount(f, s.flow)
            && (s.Again? ==> operation.Err? && f.budget.attempts < f.budget.limits.maxAttempts)
            && (s.Done? && s.terminal.Success? ==> operation == Ok(s.terminal.value))
  {
    if operation.Err? {
      RecordingCounts(cfg, f, AppError(operation.error), r);
    }
  }

  lemma AdmissionCounts(cfg: Config, f: Flow, before: BeforeInputs, commit: Boundary)
    ensures var s := AdmitStep(cfg, f, before, commit);
            && s.flow.budget.limits == f.budget.limits
            && s.flow.budget.attempts == f.budget.attempts + (if s.Go? then 1 else 0)
  {
    BeforeCounts(cfg, f, before);
  }

  lemma WaitCounts(f: Flow, wait: Wait)
    requires !wait.Elapsed?
    ensures SameCount(f, EndWait(f, wait).flow)
  {
  }

  lemma AfterWaitCounts(f: Flow, plan: Plan, wait: Wait)
    ensures var i := AfterWait(f, plan, wait);
            && SameCount(f, i.flow) && i.Continue? == wait.Elapsed?
            && (i.Continue? ==> i.plan == plan) && (i.Last? ==> i.terminal.Failure? && i.called)
  {
    if !wait.Elapsed? { WaitCounts(f, wait); }
  }

  lemma IterateCounts(cfg: Config, f: Flow, row: Row)
    ensures Counted(f, Iterate(cfg, f, row))
    ensures var i := Iterate(cfg, f, row);
            && (i.Last? && i.terminal.Success? ==> row.operation == Ok(i.terminal.value))
            && (i.Continue? ==> row.operation.Err? && WaitOf(row.wait, i.plan).Elapsed?)
  {
    AdmissionCounts(cfg, f, row.before, row.commit);
    var admitted := AdmitStep(cfg, f, row.before, row.commit);
    if admitted.Stop? {
      assert Iterate(cfg, f, row) == Last(admitted.flow, Failure(admitted.error), false);
      return;
    }
    SettlingCounts(cfg, admitted.flow, row.operation, row.finished, row.failure);
    var settled := Settle(cfg, admitted.flow, row.operation, row.finished, row.failure);
    if settled.Done? {
      assert Iterate(cfg, f, row) == Last(settled.flow, settled.terminal, true);
    } else {
      AfterWaitCounts(settled.flow, settled.plan, WaitOf(row.wait, settled.plan));
      assert Iterate(cfg, f, row) == AfterWait(settled.flow, settled.plan, WaitOf(row.wait, settled.plan));
    }
  }

  lemma IteratorCounting(cfg: Config)
    ensures Counting(Iterator(cfg))
  {
    forall f: Flow, row: Row ensures Counted(f, Iterator(cfg)(f, row)) {
      IterateCounts(cfg, f, row);
    }
  }

  /** The whole run of the facade from a flow between attempts. */
  ghost function LoopFrom(cfg: Config, f: Flow, script: nat -> Row, rows: nat, calls: nat): Ending {
    IteratorCounting(cfg);
    Drive(Iterator(cfg), f, script, rows, calls)
  }

  // --- Invariants of the loop ---------------------------------------------------------------------

  /** A flow between attempts that still has one to spend. */
  ghost predicate Idle(cfg: Config, f: Flow) {
    FlowInv(cfg, f) && f.budget.active.None? && f.retryIndex == f.budget.attempts < cfg.limits.maxAttempts
  }

  /** A terminal result matches the flow it ended. */
  ghost predicate Concluded(cfg: Config, f: Flow, t: Terminal) {
    FlowInv(cfg, f) && Current(TerminalContext(t), f.budget)
  }

  lemma AdmitKept(cfg: Config, f: Flow, before: BeforeInputs, commit: Boundary)
    requires Idle(cfg, f)
    ensures var s := AdmitStep(cfg, f, before, commit); Kept(cfg, s) && (s.Go? ==> StateInv(cfg, State(s.flow, Active)))
  {
    BeforeKept(cfg, f, before);
    var s := BeforeAttemptStep(cfg, f, before);
    if s.Go? {
      CommitKept(cfg, s.flow, None, commit);
    }
  }

  lemma SettleKept(cfg: Config, f: Flow, operation: Result<int, int>, finished: Instant, r: FailureInputs)
    requires StateInv(cfg, State(f, Active))
    ensures var s := Settle(cfg, f, operation, finished, r);
            && (s.Done? ==> Concluded(cfg, s.flow, s.terminal))
            && (s.Again? ==>
                  Idle(cfg, s.flow)
                  && RetryPlanned(cfg, s.flow, s.plan, AppError(operation.error), f.budget.attempts))
  {
    if operation.Ok? {
      SucceedKept(cfg, f, finished);
    } else {
      RecordFailureKept(cfg, f, AppError(operation.error), r);
    }
  }

  lemma EndWaitKept(cfg: Config, f: Flow, wait: Wait)
    requires Idle(cfg, f) && !wait.Elapsed?
    ensures Kept(cfg, EndWait(f, wait))
  {
    match wait
    case WaitCancelled(now) => SilentKept(cfg, f, BackoffCancelledStop(f, now));
    case WaitTimerFailed(now) => SilentKept(cfg, f, InfrastructureStop(ClearOverlay(f), TimerFailed, now));
  }

  lemma IterateKept(cfg: Config, f: Flow, row: Row)
    requires Idle(cfg, f)
    ensures var i := Iterate(cfg, f, row);
            && (i.Last? ==> Concluded(cfg, i.flow, i.terminal))
            && (i.Continue? ==> Idle(cfg, i.flow) && WaitingInv(cfg, i.flow, i.plan)
                                && i.flow.budget.sampledAt.at <= i.plan.deadline.at)
  {
    AdmitKept(cfg, f, row.before, row.commit);
    var admitted := AdmitStep(cfg, f, row.before, row.commit);
    if admitted.Go? {
      SettleKept(cfg, admitted.flow, row.operation, row.finished, row.failure);
      var settled := Settle(cfg, admitted.flow, row.operation, row.finished, row.failure);
      if settled.Again? && !WaitOf(row.wait, settled.plan).Elapsed? {
        EndWaitKept(cfg, settled.flow, WaitOf(row.wait, settled.plan));
      }
    }
  }

  lemma StartIdle(cfg: Config, startedAt: Instant)
    requires ValidLimits(cfg.limits)
    ensures Idle(cfg, Start(cfg, startedAt))
  {
    FreshInv(cfg.limits, startedAt);
  }

  lemma LoopConcludes(cfg: Config, f: Flow, script: nat -> Row, rows: nat, calls: nat)
    requires Idle(cfg, f)
    ensures var e := LoopFrom(cfg, f, script, rows, calls); Concluded(cfg, e.flow, e.terminal)
  {
    var step := Iterator(cfg);
    IteratorCounting(cfg);
    var inv, done := (g: Flow) => Idle(cfg, g), (row: Row, g: Flow, t: Terminal) => Concluded(cfg, g, t);
    forall g: Flow, row: Row | inv(g)
      ensures Carried(step(g, row), row, inv, done)
    {
      IterateKept(cfg, g, row);
    }
    DriveKeeps(step, f, script, rows, calls, inv, done);
  }

  lemma LoopSucceeds(cfg: Config, f: Flow, script: nat -> Row)
    ensures var e := LoopFrom(cfg, f, script, 0, 0);
            0 < e.rows && (e.terminal.Success? ==> script(e.rows - 1).operation == Ok(e.terminal.value))
  {
    var step := Iterator(cfg);
    IteratorCounting(cfg);
    var produced := (row: Row, value: int) => row.operation == Ok(value);
    forall g: Flow, row: Row | step(g, row).Last? && step(g, row).terminal.Success?
      ensures produced(row, step(g, row).terminal.value)
    {
      IterateCounts(cfg, g, row);
    }
    DriveSucceeds(step, f, script, 0, 0, produced);
  }

  /**
   Every run ends within the attempt limit: it consumes at most one row per attempt, it calls
   the operation exactly as often as its terminal context counts attempts, and it succeeds only
   with the value of its last operation.
   */
  lemma RunSound(cfg: Config, startedAt: Instant, script: nat -> Row)
    requires ValidLimits(cfg.limits)
    ensures var e := LoopFrom(cfg, Start(cfg, startedAt), script, 0, 0);
            && 1 <= e.rows <= cfg.limits.maxAttempts
            && e.calls == TerminalContext(e.terminal).attempts == Admissions(e.flow.trace)
            && (e.terminal.Success? ==> script(e.rows - 1).operation == Ok(e.terminal.value))
  {
    var f := Start(cfg, startedAt);
    StartIdle(cfg, startedAt);
    LoopConcludes(cfg, f, script, 0, 0);
    LoopSucceeds(cfg, f, script);
    IteratorCounting(cfg);
    DriveBounded(Iterator(cfg), f, script, 0, 0);
    DriveCounts(Iterator(cfg), f, script, 0, 0);
  }
}
