/**
 The retry flow as values: what every controller operation does to the flow's state for
 every possible response of the environment.

 A `Boundary` is one control boundary: one clock sample and one read of the cancellation
 flag. The input records list, in the order the controller consumes them, everything the
 environment answers during one operation; none of it is assumed to be well-behaved.
 */
module FlowModel {
  import opened Options
  import opened Time
  import opened Backoff
  import opened Accounting
  import opened Callbacks

  datatype Scope = AttemptScope | FlowScope

  datatype CancellationPhase = BeforeAttempts | DuringAttempt | DuringBackoff

  datatype Failure = AppError(code: int) | AttemptTimedOut(scope: Scope) | AttemptPanicked

  datatype StopTrigger = OnCancellation | OnAttemptTimeout | OnFlowTimeout | OnTimerFailure

  datatype Infrastructure =
    | ClockFailed
    | TimerFailed
    | WorkerSpawnFailed
    | WorkerChannelClosed
    | WorkerStillRunning(trigger: StopTrigger)

  datatype Reason =
    | Aborted
    | Exhausted(limit: LimitKind)
    | TimedOut(scope: Scope)
    | Cancelled(phase: CancellationPhase)
    | CallbackFailed(callback: CallbackFailure)
    | InfrastructureFailed(failure: Infrastructure)

  datatype Fallback = FallbackRetry | FallbackAbort

  datatype Context = Context(
    attempts: nat,
    currentAttempt: Option<nat>,
    limits: Limits,
    operationElapsed: Duration,
    totalElapsed: Duration,
    lastAttemptElapsed: Duration,
    hardTimeout: Option<Duration>,
    nextDelay: Option<Duration>,
    hint: Option<Duration>)

  datatype RetryError = RetryError(reason: Reason, lastFailure: Option<Failure>, context: Context)

  datatype Config = Config(
    limits: Limits,
    policy: Policy,
    arithmetic: Arithmetic,
    attemptTimeout: Option<Duration>,
    flowTimeout: Option<Duration>,
    fallback: Fallback)

  /** What the outside can observe: callback invocations with their contexts, and admissions. */
  datatype Event =
    | BeforeAttempt(invoked: nat, context: Context)
    | Admitted(ordinal: nat, at: Instant, operationElapsed: Duration)
    | AttemptFailed(invoked: nat, failure: Failure, context: Context)
    | RulesConsulted(invoked: nat, failure: Failure, context: Context)
    | RetryScheduled(invoked: nat, step: BackoffStep, context: Context)

  datatype Flow = Flow(
    budget: Budget,
    retryIndex: nat,
    lastFailure: Option<Failure>,
    currentAttempt: Option<nat>,
    hardTimeout: Option<Duration>,
    nextDelay: Option<Duration>,
    hint: Option<Duration>,
    trace: seq<Event>)

  datatype Timeout = Timeout(deadline: Instant, duration: Duration, scope: Scope)

  datatype Plan = Plan(deadline: Instant, immediate: bool)

  /** Either the flow goes on with a value, or it has stopped with its terminal error. */
  datatype Step<+T> = Go(flow: Flow, value: T) | Stop(flow: Flow, error: RetryError)

  // --- Environment responses -------------------------------------------------------------

  datatype Boundary = Boundary(now: Instant, cancelled: bool)

  datatype BeforeInputs = BeforeInputs(
    entry: Boundary,
    observers: seq<CallbackOutcome>,
    after: Boundary,
    cancelledAgain: bool)

  datatype FailureInputs = FailureInputs(
    completion: Instant,
    failedObservers: seq<CallbackOutcome>,
    afterFailed: Boundary,
    rules: seq<RuleOutcome>,
    afterRules: Boundary,
    draws: Draws,
    afterBackoff: Instant,
    scheduledObservers: seq<CallbackOutcome>,
    afterScheduled: Boundary,
    cancelledAgain: bool)

  // --- Read-only parts ---------------------------------------------------------------------

  function Start(cfg: Config, startedAt: Instant): Flow {
    Flow(Fresh(cfg.limits, startedAt), 0, None, None, None, None, None, [])
  }

  function Snapshot(f: Flow): Context {
    Context(f.budget.attempts, f.currentAttempt, f.budget.limits, f.budget.operationElapsed, TotalElapsed(f.budget),
            f.budget.lastAttemptElapsed, f.hardTimeout, f.nextDelay, f.hint)
  }

  predicate FlowExpired(cfg: Config, f: Flow) {
    cfg.flowTimeout.Some? && TotalElapsed(f.budget) >= cfg.flowTimeout.value
  }

  function FlowRemaining(cfg: Config, f: Flow): Option<Duration> {
    if cfg.flowTimeout.None? then None else Some(SaturatingSub(cfg.flowTimeout.value, TotalElapsed(f.budget)))
  }

  function FlowDeadline(cfg: Config, startedAt: Instant): Result<Option<Instant>, TimeError> {
    if cfg.flowTimeout.None? then Ok(None)
    else match CheckedAdd(startedAt, cfg.flowTimeout.value)
      case Ok(deadline) => Ok(Some(deadline))
      case Err(e) => Err(e)
  }

  /** The shorter hard timeout and its source; ties belong to the attempt. */
  function SelectTimeout(attempt: Option<Duration>, remaining: Option<Duration>): Option<(Duration, Scope)> {
    match (attempt, remaining)
    case (None, None) => None
    case (Some(a), None) => Some((a, AttemptScope))
    case (None, Some(r)) => Some((r, FlowScope))
    case (Some(a), Some(r)) => if a <= r then Some((a, AttemptScope)) else Some((r, FlowScope))
  }

  function PrepareTimeout(cfg: Config, f: Flow, now: Instant): Result<Option<Timeout>, TimeError> {
    match SelectTimeout(cfg.attemptTimeout, FlowRemaining(cfg, f))
    case None => Ok(None)
    case Some((d, AttemptScope)) =>
      (match CheckedAdd(now, d)
       case Ok(deadline) => Ok(Some(Timeout(deadline, d, AttemptScope)))
       case Err(e) => Err(e))
    case Some((d, FlowScope)) =>
      (match FlowDeadline(cfg, f.budget.startedAt)
       case Ok(Some(deadline)) => Ok(Some(Timeout(deadline, d, FlowScope)))
       case Ok(None) => Ok(None)
       case Err(e) => Err(e))
  }

  function BackoffDeadline(cfg: Config, startedAt: Instant, now: Instant, delay: Duration): Result<Instant, TimeError> {
    match FlowDeadline(cfg, startedAt)
    case Err(e) => Err(e)
    case Ok(None) => CheckedAdd(now, delay)
    case Ok(Some(flowDeadline)) =>
      if flowDeadline.domain != now.domain then Err(DomainMismatch)
      else if delay >= SaturatingSub(flowDeadline.at, now.at) then Ok(flowDeadline)
      else CheckedAdd(now, delay)
  }

  function RequestOf(decision: Decision): Request {
    match decision
    case RetryWithHint(d) => Request(Some(d), false)
    case RetryWithJitteredHint(d) => Request(Some(d), true)
    case _ => Request(None, false)
  }

  function HintOf(decision: Decision): Option<Duration> { RequestOf(decision).hint }

  // --- Small state changes ------------------------------------------------------------------

  function At(f: Flow, now: Instant): Flow { f.(budget := Sampled(f.budget, now)) }

  function Log(f: Flow, e: Event): Flow { f.(trace := f.trace + [e]) }

  function ClearOverlay(f: Flow): Flow { f.(currentAttempt := None, hardTimeout := None) }

  function StopIn<T>(f: Flow, reason: Reason, context: Context): Step<T> {
    Stop(f.(lastFailure := None), RetryError(reason, f.lastFailure, context))
  }

  /** Terminates with the attempt overlay removed. */
  function StopCleared<T>(f: Flow, reason: Reason): Step<T> {
    StopIn(ClearOverlay(f), reason, Snapshot(ClearOverlay(f)))
  }

  function ClockStop<T>(f: Flow): Step<T> { StopCleared(f, InfrastructureFailed(ClockFailed)) }

  /** A callback panic stays the cause even when its own clock sample is unusable. */
  function CallbackStop<T>(f: Flow, callback: CallbackFailure, fallback: Context, now: Instant): Step<T> {
    if Coherent(f.budget, now) then StopIn(At(f, now), CallbackFailed(callback), Snapshot(At(f, now)))
    else StopIn(f, CallbackFailed(callback), fallback)
  }

  /** The boundary after callbacks that returned: clock first, then cancellation. */
  function AfterCallbacks(f: Flow, b: Boundary, phase: CancellationPhase): Step<Instant> {
    if !Coherent(f.budget, b.now) then ClockStop(f)
    else if b.cancelled then StopCleared(At(f, b.now), Cancelled(phase))
    else Go(At(f, b.now), b.now)
  }

  /** The admission gates at the last sample: flow timeout, then cancellation, then limits. */
  function Gates<T>(cfg: Config, f: Flow, cancelled: bool, phase: CancellationPhase, delay: Duration,
      value: T): Step<T> {
    if FlowExpired(cfg, f) then StopCleared(f, TimedOut(FlowScope))
    else if cancelled then StopCleared(f, Cancelled(phase))
    else match LimitAfter(f.budget, delay)
      case Some(limit) => StopCleared(f, Exhausted(limit))
      case None => Go(f, value)
  }

  // --- Controller operations ------------------------------------------------------------------

  function EnterAttempt(f: Flow): Flow {
    f.(currentAttempt := Some(if f.budget.attempts < MAX_ATTEMPTS then f.budget.attempts + 1 else MAX_ATTEMPTS),
       hardTimeout := None, nextDelay := None, hint := None)
  }

  function BeforeAttemptStep(cfg: Config, f: Flow, r: BeforeInputs): Step<Instant> {
    if !Coherent(f.budget, r.entry.now) then ClockStop(f)
    else match Gates(cfg, At(f, r.entry.now), r.entry.cancelled, BeforeAttempts, 0, ())
      case Stop(g, e) => Stop(g, e)
      case Go(g, _) => NotifyBefore(cfg, EnterAttempt(g), r)
  }

  function NotifyBefore(cfg: Config, f: Flow, r: BeforeInputs): Step<Instant> {
    var context := Snapshot(f);
    var logged := Log(f, BeforeAttempt(Invoked(r.observers), context));
    match FirstPanic(r.observers)
    case Some(i) => CallbackStop(logged, CallbackFailure(i, BeforeAttemptPhase), context, r.after.now)
    case None =>
      match AfterCallbacks(logged, r.after, BeforeAttempts)
      case Stop(g, e) => Stop(g, e)
      case Go(g, now) => Gates(cfg, g, r.cancelledAgain, BeforeAttempts, 0, now)
  }

  function PrepareAttemptStep(cfg: Config, f: Flow, admission: Instant): Step<Option<Timeout>> {
    match PrepareTimeout(cfg, f, admission)
    case Err(_) => ClockStop(f)
    case Ok(timeout) => Go(f.(hardTimeout := if timeout.Some? then Some(timeout.value.duration) else None), timeout)
  }

  function Admit(f: Flow, now: Instant): Flow {
    Log(f.(budget := Begun(f.budget, now)), Admitted(f.budget.attempts + 1, now, f.budget.operationElapsed))
  }

  /** Committing checks the prepared deadline first; an untimed commit has no plan. */
  function CommitStep(cfg: Config, f: Flow, plan: Option<Timeout>, b: Boundary): Step<()> {
    if !Coherent(f.budget, b.now) then ClockStop(f)
    else
      var g := At(f, b.now);
      if plan.Some? && DeadlineReached(b.now, plan.value.deadline).Err? then ClockStop(g)
      else if plan.Some? && DeadlineReached(b.now, plan.value.deadline).value
      then StopCleared(g, TimedOut(plan.value.scope))
      else match Gates(cfg, g, b.cancelled, BeforeAttempts, 0, ())
        case Stop(h, e) => Stop(h, e)
        case Go(h, _) => Go(Admit(h, b.now), ())
  }

  function FinishSuccessStep(f: Flow, now: Instant): Step<Context>
    requires f.budget.active.Some?
  {
    if !Coherent(f.budget, now) then ClockStop(f)
    else
      var g := ClearOverlay(f.(budget := Finished(f.budget, now)));
      Go(g, Snapshot(g))
  }

  // record_failure, stage by stage

  function ObserveFailure(f: Flow, failure: Failure, r: FailureInputs): Step<()> {
    var context := Snapshot(f);
    var logged := Log(f, AttemptFailed(Invoked(r.failedObservers), failure, context));
    match FirstPanic(r.failedObservers)
    case Some(i) => CallbackStop(logged, CallbackFailure(i, AttemptFailedPhase), context, r.afterFailed.now)
    case None =>
      match AfterCallbacks(logged, r.afterFailed, DuringBackoff)
      case Stop(g, e) => Stop(g, e)
      case Go(g, _) => Go(g, ())
  }

  function Decide(cfg: Config, f: Flow, failure: Failure, r: FailureInputs): Step<Decision> {
    var context := Snapshot(f);
    var verdict := Judge(r.rules, 0);
    var logged := Log(f, RulesConsulted(verdict.invoked, failure, context));
    match verdict.panic
    case Some(i) => CallbackStop(logged, CallbackFailure(i, RulePhase), context, r.afterRules.now)
    case None =>
      match AfterCallbacks(logged, r.afterRules, DuringBackoff)
      case Stop(g, e) => Stop(g, e)
      case Go(g, _) => ApplyDefault(cfg, g, failure, verdict.decision)
  }

  /** Delegated failures: a timeout stays a timeout, a panic aborts, the rest follows the fallback. */
  function ApplyDefault(cfg: Config, f: Flow, failure: Failure, decision: Decision): Step<Decision> {
    match decision
    case Abort => StopCleared(f, Aborted)
    case UseDefault =>
      if failure.AttemptTimedOut? then StopCleared(f, TimedOut(failure.scope))
      else if failure.AttemptPanicked? || cfg.fallback.FallbackAbort? then StopCleared(f, Aborted)
      else Go(f, Retry)
    case _ => Go(f, decision)
  }

  function NextIndex(index: nat): nat { if index < MAX_INDEX then index + 1 else index }

  function Selected(cfg: Config, f: Flow, decision: Decision, draws: Draws): BackoffStep {
    StepAt(cfg.policy, cfg.arithmetic, NextIndex(f.retryIndex), RequestOf(decision), draws)
  }

  function Schedule(cfg: Config, f: Flow, decision: Decision, r: FailureInputs): Step<BackoffStep> {
    var step := Selected(cfg, f, decision, r.draws);
    var g := f.(retryIndex := NextIndex(f.retryIndex), hint := HintOf(decision), nextDelay := Some(step.effective));
    if !Coherent(g.budget, r.afterBackoff) then ClockStop(g)
    else match Gates(cfg, At(g, r.afterBackoff), false, DuringBackoff, step.effective, ())
      case Stop(h, e) => Stop(h, e)
      case Go(h, _) => Announce(h, step, r)
  }

  /** Observers see the selected step before the attempt overlay is removed. */
  function Announce(f: Flow, step: BackoffStep, r: FailureInputs): Step<BackoffStep> {
    var context := Snapshot(f);
    var logged := Log(f, RetryScheduled(Invoked(r.scheduledObservers), step, context));
    match FirstPanic(r.scheduledObservers)
    case Some(i) => CallbackStop(logged, CallbackFailure(i, ScheduledPhase), context, r.afterScheduled.now)
    case None => Go(ClearOverlay(logged), step)
  }

  function FixDeadline(cfg: Config, f: Flow, step: BackoffStep, r: FailureInputs): Step<Plan> {
    match AfterCallbacks(f, r.afterScheduled, DuringBackoff)
    case Stop(g, e) => Stop(g, e)
    case Go(g, now) =>
      match Gates(cfg, g, r.cancelledAgain, DuringBackoff, step.effective, ())
      case Stop(h, e) => Stop(h, e)
      case Go(h, _) =>
        match BackoffDeadline(cfg, h.budget.startedAt, now, step.effective)
        case Err(_) => ClockStop(h)
        case Ok(deadline) => Go(h, Plan(deadline, step.effective == 0))
  }

  function AfterCompletion(cfg: Config, f: Flow, failure: Failure, r: FailureInputs): Step<Plan> {
    match ObserveFailure(f, failure, r)
    case Stop(g, e) => Stop(g, e)
    case Go(g, _) =>
      match Decide(cfg, g, failure, r)
      case Stop(h, e) => Stop(h, e)
      case Go(h, decision) =>
        match Schedule(cfg, h, decision, r)
        case Stop(k, e) => Stop(k, e)
        case Go(k, step) => FixDeadline(cfg, k, step, r)
  }

  function Failed(f: Flow, failure: Failure, now: Instant): Flow
    requires f.budget.active.Some?
  {
    f.(lastFailure := Some(failure), budget := Finished(f.budget, now))
  }

  function RecordFailureStep(cfg: Config, f: Flow, failure: Failure, r: FailureInputs): Step<Plan>
    requires f.budget.active.Some?
  {
    if !Coherent(f.budget, r.completion) then ClockStop(f.(lastFailure := Some(failure)))
    else AfterCompletion(cfg, Failed(f, failure, r.completion), failure, r)
  }

  // Terminal recordings made by the facades

  function SettledBudget(b: Budget, now: Instant): Budget {
    if b.active.Some? then Finished(b, now) else Sampled(b, now)
  }

  /** Infrastructure failure; an unusable sample becomes the reported cause. */
  function InfrastructureStop(f: Flow, failure: Infrastructure, now: Instant): Step<()> {
    if Coherent(f.budget, now)
    then var g := f.(budget := SettledBudget(f.budget, now)); StopIn(g, InfrastructureFailed(failure), Snapshot(g))
    else StopIn(f, InfrastructureFailed(ClockFailed), Snapshot(f))
  }

  function AttemptCancelledStop(f: Flow, now: Instant): Step<()>
    requires f.budget.active.Some?
  {
    if !Coherent(f.budget, now) then ClockStop(f)
    else var g := f.(budget := Finished(f.budget, now)); StopIn(g, Cancelled(DuringAttempt), Snapshot(g))
  }

  function BackoffCancelledStop(f: Flow, now: Instant): Step<()> {
    if !Coherent(f.budget, now) then ClockStop(f)
    else StopIn(At(f, now), Cancelled(DuringBackoff), Snapshot(At(f, now)))
  }

  function CheckBackoffStep(f: Flow, b: Boundary, due: Instant): Step<bool> {
    if !Coherent(f.budget, b.now) then ClockStop(f)
    else if b.cancelled then StopCleared(At(f, b.now), Cancelled(DuringBackoff))
    else match DeadlineReached(b.now, due)
      case Err(_) => ClockStop(At(f, b.now))
      case Ok(reached) => Go(At(f, b.now), reached)
  }
}
