/**
 Whole runs of the flow controller.

 A driver may issue any command its phase allows; every environment response is arbitrary.
 The theorems hold of every state of every such run, so they hold for each facade.
 */
module FlowRuns {
  import opened Options
  import opened Time
  import opened Backoff
  import opened Accounting
  import opened Callbacks
  import opened FlowModel
  import opened FlowDeadlines
  import opened FailureTable

  // --- What a trace must look like -----------------------------------------------------------

  predicate HasContext(e: Event) { !e.Admitted? }

  /** Attempt count and elapsed times of one context do not exceed those of a later one. */
  predicate NotLater(c: Context, d: Context) {
    c.attempts <= d.attempts && c.operationElapsed <= d.operationElapsed && c.totalElapsed <= d.totalElapsed
  }

  /** The contexts of the trace never decrease, and none exceeds `top`. */
  predicate Ascending(trace: seq<Event>, top: Context) {
    trace == [] ||
    var e := trace[|trace| - 1];
    if HasContext(e) then NotLater(e.context, top) && Ascending(trace[..|trace| - 1], e.context)
    else Ascending(trace[..|trace| - 1], top)
  }

  function Admissions(trace: seq<Event>): nat {
    if trace == [] then 0
    else Admissions(trace[..|trace| - 1]) + (if trace[|trace| - 1].Admitted? then 1 else 0)
  }

  /** The admission found every gate open. */
  predicate WithinLimits(cfg: Config, startedAt: Instant, e: Event)
    requires e.Admitted?
  {
    && e.ordinal <= cfg.limits.maxAttempts
    && e.at.domain == startedAt.domain && startedAt.at <= e.at.at
    && Below(cfg.limits.operationBudget, e.operationElapsed)
    && Below(cfg.limits.totalBudget, e.at.at - startedAt.at)
    && Below(cfg.flowTimeout, e.at.at - startedAt.at)
  }

  /** Admissions are numbered consecutively and each was within the limits. */
  predicate AdmissionsSafe(cfg: Config, startedAt: Instant, trace: seq<Event>) {
    trace == [] ||
    var rest, e := trace[..|trace| - 1], trace[|trace| - 1];
    && AdmissionsSafe(cfg, startedAt, rest)
    && (e.Admitted? ==> e.ordinal == Admissions(rest) + 1 && WithinLimits(cfg, startedAt, e))
  }

  lemma AppendedEvent(trace: seq<Event>, e: Event)
    ensures (trace + [e])[..|trace + [e]| - 1] == trace
  {
  }

  lemma AscendingWeaken(trace: seq<Event>, c: Context, d: Context)
    requires Ascending(trace, c) && NotLater(c, d)
    ensures Ascending(trace, d)
  {
  }

  // --- Invariants ---------------------------------------------------------------------------------

  ghost predicate FlowInv(cfg: Config, f: Flow) {
    && Inv(f.budget)
    && f.budget.limits == cfg.limits
    && Ascending(f.trace, Snapshot(f))
    && Admissions(f.trace) == f.budget.attempts
    && AdmissionsSafe(cfg, f.budget.startedAt, f.trace)
  }

  /** The context carries the accounting of the given budget. */
  predicate Current(c: Context, b: Budget) {
    c.attempts == b.attempts && c.operationElapsed == b.operationElapsed && c.totalElapsed == TotalElapsed(b)
    && c.lastAttemptElapsed == b.lastAttemptElapsed
  }

  /** Same accounting at the same or a later sample. */
  predicate Later(b: Budget, c: Budget) {
    c == b.(sampledAt := c.sampledAt) && Coherent(b, c.sampledAt)
  }

  /** What every controller operation leaves behind. */
  ghost predicate Kept<T>(cfg: Config, s: Step<T>) {
    && FlowInv(cfg, s.flow)
    && (s.Stop? ==> Current(s.error.context, s.flow.budget) && s.flow.lastFailure.None?)
  }

  lemma Quiet(cfg: Config, f: Flow, g: Flow)
    requires FlowInv(cfg, f) && Later(f.budget, g.budget) && g.trace == f.trace
    ensures FlowInv(cfg, g)
  {
    SampledInv(f.budget, g.budget.sampledAt);
    AscendingWeaken(f.trace, Snapshot(f), Snapshot(g));
  }

  lemma Logged(cfg: Config, f: Flow, e: Event)
    requires FlowInv(cfg, f) && HasContext(e) && Current(e.context, f.budget)
    ensures FlowInv(cfg, Log(f, e))
  {
    AppendedEvent(f.trace, e);
    AscendingWeaken(f.trace, Snapshot(f), e.context);
  }

  lemma Finishing(cfg: Config, f: Flow, now: Instant)
    requires FlowInv(cfg, f) && f.budget.active.Some? && Coherent(f.budget, now)
    ensures FlowInv(cfg, f.(budget := Finished(f.budget, now)))
  {
    FinishedInv(f.budget, now);
    AscendingWeaken(f.trace, Snapshot(f), Snapshot(f.(budget := Finished(f.budget, now))));
  }

  lemma Admitting(cfg: Config, f: Flow, now: Instant)
    requires FlowInv(cfg, f) && f.budget.active.None? && f.budget.sampledAt == now
    requires !FlowExpired(cfg, f) && LimitAfter(f.budget, 0).None?
    ensures FlowInv(cfg, Admit(f, now))
  {
    BegunInv(f.budget, now);
    var g := Admit(f, now);
    AppendedEvent(f.trace, g.trace[|g.trace| - 1]);
    AscendingWeaken(f.trace, Snapshot(f), Snapshot(g));
  }

  /** A step that logs nothing and at most moves the last sample. */
  ghost predicate Silent<T>(f: Flow, s: Step<T>) {
    && Later(f.budget, s.flow.budget)
    && s.flow.trace == f.trace
    && (s.Stop? ==> Current(s.error.context, s.flow.budget) && s.flow.lastFailure.None?)
  }

  lemma SilentKept<T>(cfg: Config, f: Flow, s: Step<T>)
    requires FlowInv(cfg, f) && Silent(f, s)
    ensures Kept(cfg, s)
  {
    Quiet(cfg, f, s.flow);
  }

  // --- Phases of a driver ---------------------------------------------------------------------------

  datatype Phase =
    | Ready
    | Admissible
    | Prepared(timeout: Option<Timeout>)
    | Active
    | Waiting(plan: Plan)
    | Succeeded(context: Context)
    | Stopped(error: RetryError)
    | Panicked

  datatype Command =
    | Before(before: BeforeInputs)
    | Prepare
    | Commit(commit: Boundary)
    | Succeed(now: Instant)
    | Fail(failure: Failure, inputs: FailureInputs)
    | Poll(poll: Boundary)
    | BreakDown(infrastructure: Infrastructure, overlay: bool, now: Instant)
    | CancelAttempt(now: Instant)
    | CancelBackoff(now: Instant)

  datatype State = State(flow: Flow, phase: Phase)

  /** Untimed facades commit directly; facades with a hard timeout prepare first. */
  predicate Allowed(cfg: Config, s: State, c: Command) {
    match c
    case Before(_) => s.phase.Ready? || s.phase.Waiting?
    case Prepare => s.phase.Admissible?
    case Commit(_) => s.phase.Prepared? || (s.phase.Admissible? && !Timed(cfg))
    case Succeed(_) => s.phase.Active?
    case Fail(_, _) => s.phase.Active?
    case Poll(_) => s.phase.Waiting?
    case BreakDown(_, _, _) => s.phase.Prepared? || s.phase.Active? || s.phase.Waiting?
    case CancelAttempt(_) => s.phase.Active?
    case CancelBackoff(_) => s.phase.Waiting?
  }

  function Enter<T>(s: Step<T>, phase: T -> Phase): State {
    match s
    case Go(f, v) => State(f, phase(v))
    case Stop(f, e) => State(f, Stopped(e))
  }

  ghost predicate StateInv(cfg: Config, s: State) {
    var f := s.flow;
    && FlowInv(cfg, f)
    && (match s.phase
        case Ready => f.budget.active.None? && f.budget.attempts == 0 && f.retryIndex == 0
        case Admissible => Open(cfg, f)
        case Prepared(plan) => Open(cfg, f) && PlanCoherent(cfg, f, plan)
        case Active =>
          && f.budget.active == Some(f.budget.sampledAt)
          && f.retryIndex + 1 == f.budget.attempts && f.currentAttempt == Some(f.budget.attempts)
        case Waiting(plan) => WaitingInv(cfg, f, plan)
        case Succeeded(c) => c == Snapshot(f) && f.budget.active.None? && f.budget.attempts >= 1
        case Stopped(e) => Current(e.context, f.budget) && f.lastFailure.None?
        case Panicked => false)
  }

  /** All gates are open at the last sample and the next ordinal is announced. */
  ghost predicate Open(cfg: Config, f: Flow) {
    && f.budget.active.None? && f.retryIndex == f.budget.attempts
    && f.currentAttempt == Some(f.budget.attempts + 1) && f.nextDelay.None? && f.hint.None?
    && !FlowExpired(cfg, f) && LimitAfter(f.budget, 0).None?
  }

  /** The published delay is the policy's delay at the index of the failed attempt. */
  ghost predicate DelayOfIndex(cfg: Config, delay: Option<Duration>, hint: Option<Duration>, index: nat) {
    exists q: Request, draws: Draws ::
      hint == q.hint && delay == Some(StepAt(cfg.policy, cfg.arithmetic, index, q, draws).effective)
  }

  ghost predicate WaitingInv(cfg: Config, f: Flow, plan: Plan) {
    && f.budget.active.None? && f.lastFailure.Some?
    && 1 <= f.budget.attempts < cfg.limits.maxAttempts && f.retryIndex == f.budget.attempts
    && f.currentAttempt.None? && f.hardTimeout.None?
    && DelayOfIndex(cfg, f.nextDelay, f.hint, f.budget.attempts)
    && plan.deadline.domain == f.budget.sampledAt.domain
    && (plan.immediate <==> f.nextDelay == Some(0))
    && (cfg.flowTimeout.Some? ==> plan.deadline.at <= FlowEnd(cfg, f.budget.startedAt))
  }

  // --- Each operation ---------------------------------------------------------------------------------

  lemma GatesSilent<T>(cfg: Config, f: Flow, cancelled: bool, phase: CancellationPhase, delay: Duration, value: T)
    ensures var s := Gates(cfg, f, cancelled, phase, delay, value);
            && Silent(f, s)
            && (s.Go? <==> !FlowExpired(cfg, f) && !cancelled && LimitAfter(f.budget, delay).None?)
            && (s.Go? ==> s.flow == f && s.value == value)
  {
  }

  lemma NotifyKept(cfg: Config, f: Flow, r: BeforeInputs)
    requires FlowInv(cfg, f)
    ensures var s := NotifyBefore(cfg, f, r);
            Kept(cfg, s) && (s.Go? ==>
              && s.value == s.flow.budget.sampledAt && Later(f.budget, s.flow.budget)
              && s.flow == f.(budget := s.flow.budget, trace := s.flow.trace)
              && !FlowExpired(cfg, s.flow) && LimitAfter(s.flow.budget, 0).None?)
  {
    var g := Log(f, BeforeAttempt(Invoked(r.observers), Snapshot(f)));
    Logged(cfg, f, g.trace[|g.trace| - 1]);
    var s := NotifyBefore(cfg, f, r);
    assert Silent(g, s) by {
      if FirstPanic(r.observers).None? {
        var passed := AfterCallbacks(g, r.after, BeforeAttempts);
        if passed.Go? { GatesSilent(cfg, passed.flow, r.cancelledAgain, BeforeAttempts, 0, passed.value); }
      }
    }
    SilentKept(cfg, g, s);
  }

  lemma BeforeKept(cfg: Config, f: Flow, r: BeforeInputs)
    requires FlowInv(cfg, f) && f.budget.active.None? && f.retryIndex == f.budget.attempts
    ensures var s := BeforeAttemptStep(cfg, f, r);
            Kept(cfg, s) && (s.Go? ==>
                Open(cfg, s.flow) && s.value == s.flow.budget.sampledAt && Later(f.budget, s.flow.budget))
  {
    var s := BeforeAttemptStep(cfg, f, r);
    if !Coherent(f.budget, r.entry.now) {
      SilentKept(cfg, f, s);
      return;
    }
    var g := At(f, r.entry.now);
    GatesSilent(cfg, g, r.entry.cancelled, BeforeAttempts, 0, ());
    if Gates(cfg, g, r.entry.cancelled, BeforeAttempts, 0, ()).Stop? {
      SilentKept(cfg, f, s);
    } else {
      Quiet(cfg, f, EnterAttempt(g));
      NotifyKept(cfg, EnterAttempt(g), r);
    }
  }

  /** A commit either stops silently or admits at a sample where every gate is open. */
  lemma CommitShape(cfg: Config, f: Flow, plan: Option<Timeout>, b: Boundary)
    ensures var s := CommitStep(cfg, f, plan, b);
            && (s.Stop? ==> Silent(f, s))
            && (s.Go? ==> s.flow == Admit(At(f, b.now), b.now) && Coherent(f.budget, b.now)
                          && !FlowExpired(cfg, At(f, b.now)) && LimitAfter(At(f, b.now).budget, 0).None?)
  {
  }

  lemma CommitKept(cfg: Config, f: Flow, plan: Option<Timeout>, b: Boundary)
    requires FlowInv(cfg, f) && Open(cfg, f)
    ensures var s := CommitStep(cfg, f, plan, b);
            Kept(cfg, s) && (s.Go? ==>
                StateInv(cfg, State(s.flow, Active)) && s.flow.budget.attempts == f.budget.attempts + 1)
  {
    CommitShape(cfg, f, plan, b);
    var s := CommitStep(cfg, f, plan, b);
    if s.Stop? {
      SilentKept(cfg, f, s);
    } else {
      Quiet(cfg, f, At(f, b.now));
      Admitting(cfg, At(f, b.now), b.now);
    }
  }

  lemma ObserveKept(cfg: Config, f: Flow, failure: Failure, r: FailureInputs)
    requires FlowInv(cfg, f)
    ensures ObserveFailure(f, failure, r).flow.budget.attempts == f.budget.attempts
    ensures var s := ObserveFailure(f, failure, r);
            Kept(cfg, s) && (s.Go? ==>
                s.flow == f.(budget := s.flow.budget, trace := s.flow.trace) && Later(f.budget, s.flow.budget))
  {
    var g := Log(f, AttemptFailed(Invoked(r.failedObservers), failure, Snapshot(f)));
    Logged(cfg, f, g.trace[|g.trace| - 1]);
    SilentKept(cfg, g, ObserveFailure(f, failure, r));
  }

  lemma DefaultSilent(cfg: Config, f: Flow, failure: Failure, decision: Decision)
    ensures var s := ApplyDefault(cfg, f, failure, decision); Silent(f, s) && (s.Go? ==> s.flow == f)
  {
  }

  function Consulted(f: Flow, failure: Failure, r: FailureInputs): Flow {
    Log(f, RulesConsulted(Judge(r.rules, 0).invoked, failure, Snapshot(f)))
  }

  lemma DecideSilent(cfg: Config, f: Flow, failure: Failure, r: FailureInputs)
    ensures var g, s := Consulted(f, failure, r), Decide(cfg, f, failure, r);
            Silent(g, s) && (s.Go? ==> s.flow == g.(budget := s.flow.budget))
  {
    var g, verdict := Consulted(f, failure, r), Judge(r.rules, 0);
    if verdict.panic.None? {
      var passed := AfterCallbacks(g, r.afterRules, DuringBackoff);
      if passed.Go? {
        DefaultSilent(cfg, passed.flow, failure, verdict.decision);
      }
    }
  }

  lemma DecideKept(cfg: Config, f: Flow, failure: Failure, r: FailureInputs)
    requires FlowInv(cfg, f)
    ensures Decide(cfg, f, failure, r).flow.budget.attempts == f.budget.attempts
    ensures var s := Decide(cfg, f, failure, r);
            Kept(cfg, s) && (s.Go? ==>
                s.flow == f.(budget := s.flow.budget, trace := s.flow.trace) && Later(f.budget, s.flow.budget))
  {
    var g := Consulted(f, failure, r);
    Logged(cfg, f, g.trace[|g.trace| - 1]);
    DecideSilent(cfg, f, failure, r);
    SilentKept(cfg, g, Decide(cfg, f, failure, r));
  }

  function Scheduled(f: Flow, step: BackoffStep, r: FailureInputs): Flow {
    Log(f, RetryScheduled(Invoked(r.scheduledObservers), step, Snapshot(f)))
  }

  lemma AnnounceSilent(f: Flow, step: BackoffStep, r: FailureInputs)
    ensures var k, s := Scheduled(f, step, r), Announce(f, step, r);
            && Silent(k, s)
            && (s.Go? ==> s.value == step && s.flow == ClearOverlay(k))
  {
  }

  lemma AnnounceKept(cfg: Config, f: Flow, step: BackoffStep, r: FailureInputs)
    requires FlowInv(cfg, f)
    ensures var s := Announce(f, step, r);
            && Kept(cfg, s) && Later(f.budget, s.flow.budget) && s.flow.budget.attempts == f.budget.attempts
            && (s.Go? ==> s.value == step && s.flow == ClearOverlay(f).(budget := s.flow.budget, trace := s.flow.trace))
  {
    AnnounceSilent(f, step, r);
    var k := Scheduled(f, step, r);
    Logged(cfg, f, k.trace[|k.trace| - 1]);
    SilentKept(cfg, k, Announce(f, step, r));
  }

  lemma ScheduleKept(cfg: Config, f: Flow, decision: Decision, r: FailureInputs)
    requires FlowInv(cfg, f) && f.budget.active.None? && f.lastFailure.Some? && f.retryIndex + 1 == f.budget.attempts
    ensures Schedule(cfg, f, decision, r).flow.budget.attempts == f.budget.attempts
    ensures var s := Schedule(cfg, f, decision, r);
            Kept(cfg, s) && (s.Go? ==>
              && s.value == StepAt(cfg.policy, cfg.arithmetic, f.budget.attempts, RequestOf(decision), r.draws)
              && Later(f.budget, s.flow.budget)
              && s.flow == f.(budget := s.flow.budget, trace := s.flow.trace, retryIndex := f.budget.attempts,
                              currentAttempt := None, hardTimeout := None,
                              nextDelay := Some(s.value.effective), hint := HintOf(decision)))
  {
    var s := Schedule(cfg, f, decision, r);
    var step := Selected(cfg, f, decision, r.draws);
    var g := f.(retryIndex := NextIndex(f.retryIndex), hint := HintOf(decision), nextDelay := Some(step.effective));
    if !Coherent(g.budget, r.afterBackoff) {
      SilentKept(cfg, f, s);
      return;
    }
    var h := At(g, r.afterBackoff);
    GatesSilent(cfg, h, false, DuringBackoff, step.effective, ());
    if Gates(cfg, h, false, DuringBackoff, step.effective, ()).Stop? {
      SilentKept(cfg, f, s);
    } else {
      Quiet(cfg, f, h);
      AnnounceKept(cfg, h, step, r);
    }
  }

  lemma DeadlineKept(cfg: Config, f: Flow, step: BackoffStep, r: FailureInputs)
    requires FlowInv(cfg, f) && f.budget.active.None?
    ensures FixDeadline(cfg, f, step, r).flow.budget.attempts == f.budget.attempts
    ensures var s := FixDeadline(cfg, f, step, r);
            Kept(cfg, s) && (s.Go? ==>
              && s.flow == At(f, s.flow.budget.sampledAt) && Later(f.budget, s.flow.budget)
              && LimitAfter(s.flow.budget, step.effective).None? && !FlowExpired(cfg, s.flow)
              && BackoffDeadline(cfg, f.budget.startedAt, s.flow.budget.sampledAt, step.effective) ==
                 Ok(s.value.deadline)
              && (s.value.immediate <==> step.effective == 0))
  {
    SilentKept(cfg, f, FixDeadline(cfg, f, step, r));
  }

  /** The flow has accounted for a failure and not yet selected what follows. */
  ghost predicate JustFailed(cfg: Config, f: Flow, failure: Failure) {
    && FlowInv(cfg, f) && f.budget.active.None? && f.lastFailure == Some(failure)
    && f.retryIndex + 1 == f.budget.attempts
  }

  /** A planned retry: it waits for the policy's delay at this attempt's index, from the last sample on. */
  ghost predicate RetryPlanned(cfg: Config, f: Flow, plan: Plan, failure: Failure, attempts: nat) {
    && WaitingInv(cfg, f, plan)
    && f.lastFailure == Some(failure) && f.budget.attempts == attempts
    && !FlowExpired(cfg, f)
    && f.budget.sampledAt.at <= plan.deadline.at
    && (plan.immediate <==> plan.deadline == f.budget.sampledAt)
  }

  lemma PlannedFromStep(cfg: Config, f: Flow, failure: Failure, decision: Decision, r: FailureInputs)
    requires JustFailed(cfg, f, failure)
    ensures var s := Schedule(cfg, f, decision, r);
            && s.flow.budget.attempts == f.budget.attempts
            && Kept(cfg, s)
            && (s.Go? ==> var p := FixDeadline(cfg, s.flow, s.value, r);
                          p.flow.budget.attempts == f.budget.attempts && Kept(cfg, p)
                          && (p.Go? ==> RetryPlanned(cfg, p.flow, p.value, failure, f.budget.attempts)))
  {
    ScheduleKept(cfg, f, decision, r);
    var s := Schedule(cfg, f, decision, r);
    if s.Go? {
      DeadlineKept(cfg, s.flow, s.value, r);
      var p := FixDeadline(cfg, s.flow, s.value, r);
      if p.Go? {
        BackoffDeadlineExact(cfg, f.budget.startedAt, p.flow.budget.sampledAt, s.value.effective);
        assert p.flow.hint == RequestOf(decision).hint;
        assert DelayOfIndex(cfg, p.flow.nextDelay, p.flow.hint, p.flow.budget.attempts);
      }
    }
  }

  lemma AfterCompletionKept(cfg: Config, f: Flow, failure: Failure, r: FailureInputs)
    requires JustFailed(cfg, f, failure)
    ensures AfterCompletion(cfg, f, failure, r).flow.budget.attempts == f.budget.attempts
    ensures var s := AfterCompletion(cfg, f, failure, r);
            Kept(cfg, s) && (s.Go? ==> RetryPlanned(cfg, s.flow, s.value, failure, f.budget.attempts))
  {
    ObserveKept(cfg, f, failure, r);
    var observed := ObserveFailure(f, failure, r);
    if observed.Go? {
      DecideKept(cfg, observed.flow, failure, r);
      var decided := Decide(cfg, observed.flow, failure, r);
      if decided.Go? {
        PlannedFromStep(cfg, decided.flow, failure, decided.value, r);
      }
    }
  }

  lemma RecordFailureKept(cfg: Config, f: Flow, failure: Failure, r: FailureInputs)
    requires StateInv(cfg, State(f, Active))
    ensures RecordFailureStep(cfg, f, failure, r).flow.budget.attempts == f.budget.attempts
    ensures var s := RecordFailureStep(cfg, f, failure, r);
            Kept(cfg, s) && (s.Go? ==> RetryPlanned(cfg, s.flow, s.value, failure, f.budget.attempts))
  {
    if Coherent(f.budget, r.completion) {
      Finishing(cfg, f, r.completion);
      AfterCompletionKept(cfg, Failed(f, failure, r.completion), failure, r);
    } else {
      SilentKept(cfg, f, RecordFailureStep(cfg, f, failure, r));
    }
  }

  // --- Runs ---------------------------------------------------------------------------------------------

  /** Completing an attempt expects an active one; without it the program panics. */
  ghost function Next(cfg: Config, s: State, c: Command): State
    requires Allowed(cfg, s, c)
  {
    var f := s.flow;
    if (c.Succeed? || c.Fail? || c.CancelAttempt?) && f.budget.active.None? then State(f, Panicked)
    else match c
      case Before(r) => Enter(BeforeAttemptStep(cfg, f, r), _ => Admissible)
      case Prepare => Enter(PrepareAttemptStep(cfg, f, f.budget.sampledAt), t => Prepared(t))
      case Commit(b) => Enter(CommitStep(cfg, f, if s.phase.Prepared? then s.phase.timeout else None, b), _ => Active)
      case Succeed(now) => Enter(FinishSuccessStep(f, now), ctx => Succeeded(ctx))
      case Fail(failure, r) => Enter(RecordFailureStep(cfg, f, failure, r), p => Waiting(p))
      case Poll(b) => Enter(CheckBackoffStep(f, b, s.phase.plan.deadline), _ => s.phase)
      case BreakDown(infrastructure, overlay, now) =>
        Enter(InfrastructureStop(if overlay then f else ClearOverlay(f), infrastructure, now), _ => s.phase)
      case CancelAttempt(now) => Enter(AttemptCancelledStop(f, now), _ => s.phase)
      case CancelBackoff(now) => Enter(BackoffCancelledStop(f, now), _ => s.phase)
  }

  lemma BreakDownKept(cfg: Config, f: Flow, infrastructure: Infrastructure, now: Instant)
    requires FlowInv(cfg, f)
    ensures Kept(cfg, InfrastructureStop(f, infrastructure, now))
  {
    if Coherent(f.budget, now) && f.budget.active.Some? {
      Finishing(cfg, f, now);
    } else {
      SilentKept(cfg, f, InfrastructureStop(f, infrastructure, now));
    }
  }

  lemma CancelledAttemptKept(cfg: Config, f: Flow, now: Instant)
    requires FlowInv(cfg, f) && f.budget.active.Some?
    ensures Kept(cfg, AttemptCancelledStop(f, now))
  {
    if Coherent(f.budget, now) {
      Finishing(cfg, f, now);
    } else {
      SilentKept(cfg, f, AttemptCancelledStop(f, now));
    }
  }

  lemma SucceedKept(cfg: Config, f: Flow, now: Instant)
    requires FlowInv(cfg, f) && f.budget.active.Some?
    ensures var s := FinishSuccessStep(f, now);
            Kept(cfg, s) && (s.Go? ==> s.value == Snapshot(s.flow) && s.flow.budget.active.None?
                                       && s.flow.budget.attempts == f.budget.attempts >= 1)
  {
    if Coherent(f.budget, now) {
      Finishing(cfg, f, now);
      var finished := f.(budget := Finished(f.budget, now));
      Quiet(cfg, finished, ClearOverlay(finished));
    } else {
      SilentKept(cfg, f, FinishSuccessStep(f, now));
    }
  }

  lemma PolledKept(cfg: Config, f: Flow, b: Boundary, plan: Plan)
    requires FlowInv(cfg, f) && WaitingInv(cfg, f, plan)
    ensures var s := CheckBackoffStep(f, b, plan.deadline);
            && Kept(cfg, s)
            && (s.Go? ==> s.flow == At(f, b.now) && WaitingInv(cfg, s.flow, plan))
            && (s == Go(s.flow, true) <==> Coherent(f.budget, b.now) && !b.cancelled && plan.deadline.at <= b.now.at)
  {
    SilentKept(cfg, f, CheckBackoffStep(f, b, plan.deadline));
  }

  lemma BeforeNext(cfg: Config, s: State, r: BeforeInputs)
    requires StateInv(cfg, s) && Allowed(cfg, s, Before(r))
    ensures StateInv(cfg, Next(cfg, s, Before(r)))
  {
    BeforeKept(cfg, s.flow, r);
  }

  lemma PrepareNext(cfg: Config, s: State)
    requires StateInv(cfg, s) && Allowed(cfg, s, Prepare)
    ensures StateInv(cfg, Next(cfg, s, Prepare))
  {
    PreparedPlanCoherent(cfg, s.flow);
    SilentKept(cfg, s.flow, PrepareAttemptStep(cfg, s.flow, s.flow.budget.sampledAt));
  }

  lemma CommitNext(cfg: Config, s: State, b: Boundary)
    requires StateInv(cfg, s) && Allowed(cfg, s, Commit(b))
    ensures StateInv(cfg, Next(cfg, s, Commit(b)))
  {
    CommitKept(cfg, s.flow, if s.phase.Prepared? then s.phase.timeout else None, b);
  }

  /** Commands that account for the end of an attempt. */
  lemma CompletionNext(cfg: Config, s: State, c: Command)
    requires StateInv(cfg, s) && Allowed(cfg, s, c) && (c.Succeed? || c.Fail? || c.CancelAttempt?)
    ensures StateInv(cfg, Next(cfg, s, c))
  {
    var f := s.flow;
    match c
    case Succeed(now) => SucceedKept(cfg, f, now);
    case Fail(failure, r) => RecordFailureKept(cfg, f, failure, r);
    case CancelAttempt(now) => CancelledAttemptKept(cfg, f, now);
  }

  lemma PollNext(cfg: Config, s: State, b: Boundary)
    requires StateInv(cfg, s) && Allowed(cfg, s, Poll(b))
    ensures StateInv(cfg, Next(cfg, s, Poll(b)))
  {
    PolledKept(cfg, s.flow, b, s.phase.plan);
  }

  lemma BrokenKept(cfg: Config, f: Flow, infrastructure: Infrastructure, overlay: bool, now: Instant)
    requires FlowInv(cfg, f)
    ensures var s := InfrastructureStop(if overlay then f else ClearOverlay(f), infrastructure, now);
             Kept(cfg, s) && s.Stop?
  {
    var g := if overlay then f else ClearOverlay(f);
    Quiet(cfg, f, g);
    BreakDownKept(cfg, g, infrastructure, now);
  }

  lemma BreakDownNext(cfg: Config, s: State, infrastructure: Infrastructure, overlay: bool, now: Instant)
    requires StateInv(cfg, s) && Allowed(cfg, s, BreakDown(infrastructure, overlay, now))
    ensures StateInv(cfg, Next(cfg, s, BreakDown(infrastructure, overlay, now)))
  {
    BrokenKept(cfg, s.flow, infrastructure, overlay, now);
  }

  lemma CancelBackoffNext(cfg: Config, s: State, now: Instant)
    requires StateInv(cfg, s) && Allowed(cfg, s, CancelBackoff(now))
    ensures StateInv(cfg, Next(cfg, s, CancelBackoff(now)))
  {
    SilentKept(cfg, s.flow, BackoffCancelledStop(s.flow, now));
  }

  /** Every command keeps the invariant of the phase it leads to. */
  lemma NextInv(cfg: Config, s: State, c: Command)
    requires StateInv(cfg, s) && Allowed(cfg, s, c)
    ensures StateInv(cfg, Next(cfg, s, c))
  {
    match c
    case Before(r) => BeforeNext(cfg, s, r);
    case Prepare => PrepareNext(cfg, s);
    case Commit(b) => CommitNext(cfg, s, b);
    case Poll(b) => PollNext(cfg, s, b);
    case BreakDown(infrastructure, overlay, now) => BreakDownNext(cfg, s, infrastructure, overlay, now);
    case CancelBackoff(now) => CancelBackoffNext(cfg, s, now);
    case _ => CompletionNext(cfg, s, c);
  }

  ghost predicate IsRun(cfg: Config, run: seq<State>, commands: seq<Command>) {
    && ValidLimits(cfg.limits)
    && |run| == |commands| + 1
    && (exists t: Instant :: run[0] == State(Start(cfg, t), Ready))
    && forall i :: 0 <= i < |commands| ==>
         Allowed(cfg, run[i], commands[i]) && run[i + 1] == Next(cfg, run[i], commands[i])
  }

  lemma {:induction false} RunInv(cfg: Config, run: seq<State>, commands: seq<Command>, i: nat)
    requires IsRun(cfg, run, commands) && i < |run|
    ensures StateInv(cfg, run[i])
  {
    if i == 0 {
      var t: Instant :| run[0] == State(Start(cfg, t), Ready);
      FreshInv(cfg.limits, t);
    } else {
      RunInv(cfg, run, commands, i - 1);
      NextInv(cfg, run[i - 1], commands[i - 1]);
    }
  }

  /** The expectations of the program never fail: an active phase has an active attempt, a waiting one its failure. */
  lemma ExpectationsHold(cfg: Config, run: seq<State>, commands: seq<Command>, i: nat)
    requires IsRun(cfg, run, commands) && i < |run|
    ensures !run[i].phase.Panicked?
    ensures run[i].phase.Active? <==> run[i].flow.budget.active.Some? && !run[i].phase.Stopped?
    ensures run[i].phase.Waiting? ==> run[i].flow.lastFailure.Some?
  {
    RunInv(cfg, run, commands, i);
  }

  // --- Theorems about every run ----------------------------------------------------------------------------

  lemma {:induction false} AscendingPairs(trace: seq<Event>, top: Context, i: nat, j: nat)
    requires Ascending(trace, top) && i <= j < |trace| && HasContext(trace[i]) && HasContext(trace[j])
    ensures NotLater(trace[i].context, trace[j].context) && NotLater(trace[j].context, top)
    decreases |trace|
  {
    var rest, e := trace[..|trace| - 1], trace[|trace| - 1];
    var next := if HasContext(e) then e.context else top;
    if j < |trace| - 1 {
      AscendingPairs(rest, next, i, j);
    } else if i < j {
      AscendingPairs(rest, next, i, i);
    }
  }

  /** Attempt counts and elapsed times never decrease across the contexts of a run, up to the terminal one. */
  lemma ContextsNeverDecrease(cfg: Config, run: seq<State>, commands: seq<Command>, n: nat, i: nat, j: nat)
    requires IsRun(cfg, run, commands) && n < |run|
    requires var trace := run[n].flow.trace; i <= j < |trace| && HasContext(trace[i]) && HasContext(trace[j])
    ensures var trace := run[n].flow.trace;
            && NotLater(trace[i].context, trace[j].context)
            && (run[n].phase.Stopped? ==> NotLater(trace[j].context, run[n].phase.error.context))
            && (run[n].phase.Succeeded? ==> NotLater(trace[j].context, run[n].phase.context))
  {
    RunInv(cfg, run, commands, n);
    AscendingPairs(run[n].flow.trace, Snapshot(run[n].flow), i, j);
  }

  lemma {:induction false} AdmissionSafeAt(cfg: Config, startedAt: Instant, trace: seq<Event>, i: nat)
    requires AdmissionsSafe(cfg, startedAt, trace) && i < |trace| && trace[i].Admitted?
    ensures trace[i].ordinal == Admissions(trace[..i]) + 1 && WithinLimits(cfg, startedAt, trace[i])
  {
    if i < |trace| - 1 {
      AdmissionSafeAt(cfg, startedAt, trace[..|trace| - 1], i);
      assert trace[..|trace| - 1][..i] == trace[..i];
    } else {
      assert trace[..i] == trace[..|trace| - 1];
    }
  }

  /**
   Admission safety: admissions are numbered 1, 2, 3, ...; each is within the attempt limit and
   strictly below every configured time limit at its own sample; and the context a run ends
   with counts exactly the admissions that happened.
   */
  lemma AdmissionSafety(cfg: Config, run: seq<State>, commands: seq<Command>, n: nat, i: nat)
    requires IsRun(cfg, run, commands) && n < |run| && i < |run[n].flow.trace| && run[n].flow.trace[i].Admitted?
    ensures var f := run[n].flow;
            && f.trace[i].ordinal == Admissions(f.trace[..i]) + 1
            && WithinLimits(cfg, f.budget.startedAt, f.trace[i])
  {
    RunInv(cfg, run, commands, n);
    AdmissionSafeAt(cfg, run[n].flow.budget.startedAt, run[n].flow.trace, i);
  }

  lemma TerminalCountsAdmissions(cfg: Config, run: seq<State>, commands: seq<Command>, n: nat)
    requires IsRun(cfg, run, commands) && n < |run|
    ensures var s := run[n];
            && Admissions(s.flow.trace) == s.flow.budget.attempts <= cfg.limits.maxAttempts
            && (s.phase.Stopped? ==> s.phase.error.context.attempts == Admissions(s.flow.trace))
            && (s.phase.Succeeded? ==> s.phase.context.attempts == Admissions(s.flow.trace) >= 1)
  {
    RunInv(cfg, run, commands, n);
  }

  /** In every state the operation time is the exact sum of disjoint attempt intervals within the elapsed time. */
  lemma RunConservesTime(cfg: Config, run: seq<State>, commands: seq<Command>, n: nat)
    requires IsRun(cfg, run, commands) && n < |run|
    ensures var b := run[n].flow.budget;
            && b.operationElapsed == TotalTime(b.completed) <= TotalElapsed(b)
            && DisjointWithin(b.completed, b.startedAt.at, b.sampledAt.at)
            && (run[n].phase.Stopped? ==> run[n].phase.error.context.operationElapsed == TotalTime(b.completed))
  {
    RunInv(cfg, run, commands, n);
    TimeConserved(run[n].flow.budget);
  }

  predicate Nothing(limit: Option<Duration>) { limit == Some(0) }

  /** A zero budget or a zero hard timeout. */
  predicate Closed(cfg: Config) {
    Nothing(cfg.limits.operationBudget) || Nothing(cfg.limits.totalBudget) || Nothing(cfg.flowTimeout)
        || Nothing(cfg.attemptTimeout)
  }

  lemma BeforeCounts(cfg: Config, f: Flow, r: BeforeInputs)
    ensures BeforeAttemptStep(cfg, f, r).flow.budget.attempts == f.budget.attempts
    ensures BeforeAttemptStep(cfg, f, r).flow.budget.limits == f.budget.limits
  {
    var g := EnterAttempt(At(f, r.entry.now));
    assert NotifyBefore(cfg, g, r).flow.budget == g.budget.(sampledAt := NotifyBefore(cfg, g, r).flow.budget.sampledAt);
  }

  lemma AdmissionAdmits(cfg: Config, s: State, c: Command)
    requires Allowed(cfg, s, c) && (c.Before? || c.Prepare? || c.Commit?)
    ensures var n := Next(cfg, s, c);
            && n.flow.budget.attempts == s.flow.budget.attempts + (if c.Commit? && n.phase.Active? then 1 else 0)
            && (n.phase.Active? ==> c.Commit?)
  {
    match c
    case Before(r) => BeforeCounts(cfg, s.flow, r);
    case Prepare =>
    case Commit(b) => CommitShape(cfg, s.flow, if s.phase.Prepared? then s.phase.timeout else None, b);
  }

  /** Attempts are counted by successful commits and by nothing else. */
  lemma OnlyCommitAdmits(cfg: Config, s: State, c: Command)
    requires StateInv(cfg, s) && Allowed(cfg, s, c)
    ensures Next(cfg, s, c).flow.budget.attempts ==
            s.flow.budget.attempts + (if c.Commit? && Next(cfg, s, c).phase.Active? then 1 else 0)
    ensures Next(cfg, s, c).phase.Active? ==> c.Commit?
  {
    if c.Before? || c.Prepare? || c.Commit? {
      AdmissionAdmits(cfg, s, c);
    } else if c.Fail? {
      RecordFailureKept(cfg, s.flow, c.failure, c.inputs);
    }
  }

  lemma ClosedCommit(cfg: Config, f: Flow, plan: Option<Timeout>, b: Boundary)
    requires FlowInv(cfg, f) && Closed(cfg) && PlanCoherent(cfg, f, plan)
    ensures CommitStep(cfg, f, plan, b).Stop?
  {
    if plan.Some? && Coherent(f.budget, b.now) { TimedCommit(cfg, f, plan, b); }
  }

  /** With a zero budget or a zero hard timeout no operation is ever admitted. */
  lemma {:induction false} ClosedNeverAdmits(cfg: Config, run: seq<State>, commands: seq<Command>, n: nat)
    requires IsRun(cfg, run, commands) && n < |run| && Closed(cfg)
    ensures Admissions(run[n].flow.trace) == 0 == run[n].flow.budget.attempts && !run[n].phase.Active?
  {
    RunInv(cfg, run, commands, n);
    if n > 0 {
      ClosedNeverAdmits(cfg, run, commands, n - 1);
      var s, c := run[n - 1], commands[n - 1];
      RunInv(cfg, run, commands, n - 1);
      OnlyCommitAdmits(cfg, s, c);
      if c.Commit? {
        ClosedCommit(cfg, s.flow, if s.phase.Prepared? then s.phase.timeout else None, c.commit);
      }
    }
  }

  /** Neither the entry gates nor the commit gates report the attempt limit while an attempt is left. */
  lemma GatesSpareAttempts(cfg: Config, f: Flow, r: BeforeInputs, plan: Option<Timeout>, b: Boundary)
    requires f.budget.attempts < f.budget.limits.maxAttempts
    ensures BeforeAttemptStep(cfg, f, r).Stop? ==> BeforeAttemptStep(cfg, f, r).error.reason != Exhausted(AttemptLimit)
    ensures CommitStep(cfg, f, plan, b).Stop? ==> CommitStep(cfg, f, plan, b).error.reason != Exhausted(AttemptLimit)
  {
  }

  lemma AttemptLimitStep(cfg: Config, s: State, c: Command)
    requires StateInv(cfg, s) && Allowed(cfg, s, c)
    ensures var n := Next(cfg, s, c);
            n.phase.Stopped? && n.phase.error.reason == Exhausted(AttemptLimit) ==>
              c.Fail? && n.phase.error.lastFailure == Some(c.failure)
                  && s.flow.budget.attempts == cfg.limits.maxAttempts
  {
    match c
    case Before(r) => GatesSpareAttempts(cfg, s.flow, r, None, r.entry);
    case Commit(b) => GatesSilent(cfg, At(s.flow, b.now), b.cancelled, BeforeAttempts, 0, ());
    case Fail(failure, r) => LastAttemptNeverRetries(cfg, s.flow, failure, r); TableDecides(cfg, s.flow, failure, r);
    case _ =>
  }

  lemma StoppedContextCurrent(cfg: Config, s: State)
    requires StateInv(cfg, s) && s.phase.Stopped?
    ensures s.phase.error.context.attempts == s.flow.budget.attempts
  {
  }

  /**
   The attempt limit is only ever reported while recording a failure, with every attempt used and
   that failure retained.
   */
  lemma AttemptLimitOnlyAfterFailure(cfg: Config, run: seq<State>, commands: seq<Command>, n: nat)
    requires IsRun(cfg, run, commands) && 0 < n < |run|
    requires run[n].phase.Stopped? && run[n].phase.error.reason == Exhausted(AttemptLimit)
    ensures commands[n - 1].Fail?
    ensures run[n].phase.error.lastFailure == Some(commands[n - 1].failure)
    ensures run[n].phase.error.context.attempts == cfg.limits.maxAttempts
  {
    RunInv(cfg, run, commands, n - 1);
    RunInv(cfg, run, commands, n);
    var s, c, t := run[n - 1], commands[n - 1], run[n];
    assert t == Next(cfg, s, c);
    AttemptLimitStep(cfg, s, c);
    OnlyCommitAdmits(cfg, s, c);
    StoppedContextCurrent(cfg, t);
  }

  /** What the retry planned for this failure publishes while it waits. */
  ghost predicate PublishesDecision(cfg: Config, f: Flow, r: FailureInputs) {
    && f.nextDelay ==
         Some(StepAt(cfg.policy, cfg.arithmetic, f.budget.attempts, RequestOf(Effective(r)), r.draws).effective)
    && f.hint == HintOf(Effective(r))
  }

  lemma FailurePublishes(cfg: Config, f: Flow, failure: Failure, r: FailureInputs)
    requires JustFailed(cfg, f, failure)
    ensures var s := AfterCompletion(cfg, f, failure, r); s.Go? ==> PublishesDecision(cfg, s.flow, r)
  {
    ObserveKept(cfg, f, failure, r);
    var observed := ObserveFailure(f, failure, r);
    if observed.Go? {
      DecideKept(cfg, observed.flow, failure, r);
      var decided := Decide(cfg, observed.flow, failure, r);
      if decided.Go? {
        DecidedIsEffective(cfg, observed.flow, failure, r);
        ScheduleKept(cfg, decided.flow, decided.value, r);
        var scheduled := Schedule(cfg, decided.flow, decided.value, r);
        if scheduled.Go? {
          DeadlineKept(cfg, scheduled.flow, scheduled.value, r);
        }
      }
    }
  }

  lemma DecidedIsEffective(cfg: Config, f: Flow, failure: Failure, r: FailureInputs)
    ensures Decide(cfg, f, failure, r).Go? ==> Decide(cfg, f, failure, r).value == Effective(r)
  {
  }

  lemma FailNextPublishes(cfg: Config, s: State, failure: Failure, r: FailureInputs)
    requires StateInv(cfg, s) && Allowed(cfg, s, Fail(failure, r))
    ensures var n := Next(cfg, s, Fail(failure, r)); n.phase.Waiting? ==> PublishesDecision(cfg, n.flow, r)
  {
    if Coherent(s.flow.budget, r.completion) {
      Finishing(cfg, s.flow, r.completion);
      FailurePublishes(cfg, Failed(s.flow, failure, r.completion), failure, r);
    }
  }

  predicate SamePublication(f: Flow, g: Flow) {
    f.nextDelay == g.nextDelay && f.hint == g.hint && f.budget.attempts == g.budget.attempts
  }

  /** A wait comes from recording a failure or from an earlier moment of the same wait. */
  lemma WaitingComesFrom(cfg: Config, s: State, c: Command)
    requires StateInv(cfg, s) && Allowed(cfg, s, c) && Next(cfg, s, c).phase.Waiting?
    ensures c.Fail? || (c.Poll? && s.phase.Waiting? && SamePublication(Next(cfg, s, c).flow, s.flow))
  {
  }

  /** The wait in `t` begins with the failure that command `c` records, or goes on with its poll. */
  ghost predicate WaitLink(cfg: Config, s: State, c: Command, t: State) {
    if c.Fail? then PublishesDecision(cfg, t.flow, c.inputs)
    else c.Poll? && s.phase.Waiting? && SamePublication(t.flow, s.flow)
  }

  lemma WaitNext(cfg: Config, s: State, c: Command, t: State)
    requires StateInv(cfg, s) && Allowed(cfg, s, c) && t == Next(cfg, s, c) && t.phase.Waiting?
    ensures WaitLink(cfg, s, c, t)
  {
    WaitingComesFrom(cfg, s, c);
    if c.Fail? {
      FailNextPublishes(cfg, s, c.failure, c.inputs);
    }
  }

  ghost predicate WaitsLinked(cfg: Config, run: seq<State>, commands: seq<Command>) {
    && |run| == |commands| + 1 && !run[0].phase.Waiting?
    && forall i :: 0 <= i < |commands| && run[i + 1].phase.Waiting? ==> WaitLink(cfg, run[i], commands[i], run[i + 1])
  }

  lemma RunLinksWaits(cfg: Config, run: seq<State>, commands: seq<Command>)
    requires IsRun(cfg, run, commands)
    ensures WaitsLinked(cfg, run, commands)
  {
    forall i | 0 <= i < |commands| && run[i + 1].phase.Waiting?
      ensures WaitLink(cfg, run[i], commands[i], run[i + 1])
    {
      RunInv(cfg, run, commands, i);
      WaitNext(cfg, run[i], commands[i], run[i + 1]);
    }
  }

  lemma {:induction false} WaitOrigin(cfg: Config, run: seq<State>, commands: seq<Command>, n: nat) returns (m: nat)
    requires WaitsLinked(cfg, run, commands) && n < |run| && run[n].phase.Waiting?
    ensures m < n && commands[m].Fail? && forall k :: m < k < n ==> commands[k].Poll?
    ensures PublishesDecision(cfg, run[n].flow, commands[m].inputs)
  {
    assert WaitLink(cfg, run[n - 1], commands[n - 1], run[n]);
    if commands[n - 1].Fail? {
      m := n - 1;
    } else {
      m := WaitOrigin(cfg, run, commands, n - 1);
      SamePublished(cfg, run[n - 1].flow, run[n].flow, commands[m].inputs);
    }
  }

  lemma SamePublished(cfg: Config, f: Flow, g: Flow, r: FailureInputs)
    requires PublishesDecision(cfg, f, r) && SamePublication(g, f)
    ensures PublishesDecision(cfg, g, r)
  {
  }

  /**
   While waiting, the backoff index equals the attempt count, and the published delay and hint are
   the policy's at that index for the decision and the draws of the failure being waited out.
   */
  lemma WaitingIndexSynchronised(cfg: Config, run: seq<State>, commands: seq<Command>, n: nat) returns (m: nat)
    requires IsRun(cfg, run, commands) && n < |run| && run[n].phase.Waiting?
    ensures m < n && commands[m].Fail? && forall k :: m < k < n ==> commands[k].Poll?
    ensures run[n].flow.retryIndex == run[n].flow.budget.attempts
    ensures PublishesDecision(cfg, run[n].flow, commands[m].inputs)
  {
    RunInv(cfg, run, commands, n);
    RunLinksWaits(cfg, run, commands);
    m := WaitOrigin(cfg, run, commands, n);
  }

  /** Announcing the next attempt clears what the previous one published. */
  lemma AnnouncementClearsDelay(cfg: Config, run: seq<State>, commands: seq<Command>, n: nat)
    requires IsRun(cfg, run, commands) && n < |run| && (run[n].phase.Admissible? || run[n].phase.Prepared?)
    ensures run[n].flow.nextDelay.None? && run[n].flow.hint.None?
  {
    RunInv(cfg, run, commands, n);
  }
}
