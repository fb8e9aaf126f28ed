/**
 One worker attempt, as interleaved atomic steps of the calling thread, the gated worker
 thread, the detached reaper thread, and the sources of readiness (cancellation and timer).

 The calling thread spawns the worker behind a start gate, spawns the reaper that joins it,
 registers for cancellation, commits admission, opens the gate, and then serves one event
 queue until the attempt is decided. It never joins a thread itself.
 */
module WorkerProtocol {
  import opened Options

  datatype AttemptResult = Succeeded | FailedWith(code: int) | Panicked

  /** What the operation does when it ends. */
  datatype OperationEnd = Returns(value: int) | Fails(code: int) | Unwinds

  datatype Event = Completed(result: AttemptResult) | Joined(panicked: bool) | Wake

  datatype Trigger = Cancellation | Timeout | TimerFailure

  datatype Outcome =
    | SpawnFailed
    | AdmissionRejected
    | ChannelClosed
    | CompletedWith(result: AttemptResult)
    | TimerFailed
    | Stopped(trigger: Trigger)
    | StillRunning(trigger: Trigger)

  /** Stages of the calling thread. The four after `DroppingSender` form its event loop. */
  datatype Stage =
    | SpawningWorker | SpawningReaper | Registering | Preparing | Releasing | DroppingSender
    | CheckingCancellation | PollingTimer | CheckingDone | Receiving
    | InGrace(trigger: Trigger)
    | Done(outcome: Outcome)

  datatype Worker =
    NotSpawned | AtGate | Operating | Reporting(result: AttemptResult) | Leaving | Exited(panicked: bool)

  datatype Reaper = NoReaper | Joining | JoinReported

  /** A waker handed to a source of readiness: not handed over, waiting, owed a call, called. */
  datatype Waker = Unregistered | Registered | Owed | Called

  datatype Timer = NoTimer | Armed | Fired(ok: bool)

  datatype GraceMode = ZeroGrace | BoundedGrace | UnboundedGrace

  datatype Setup = Setup(cancellable: bool, timed: bool, grace: GraceMode)

  /** The calling thread; `seen` is history: the completion and join events it has received. */
  datatype Caller = Caller(
    stage: Stage, gateDropped: bool, holdsSender: bool, admitted: bool, tokenCancelled: bool,
    completed: Option<AttemptResult>, joined: bool, seen: seq<Event>)

  /**
   The worker and its reaper. The history says how often the operation was entered, its result,
   the value it left in the shared slot, and whether the worker sent its result.
   */
  datatype Threads = Threads(
    worker: Worker, reaper: Reaper, calls: nat, result: Option<AttemptResult>, stored: Option<int>, reported: bool)

  datatype Sources = Sources(cancelled: bool, cancelWaker: Waker, timer: Timer, timerWaker: Waker)

  datatype System = System(caller: Caller, threads: Threads, sources: Sources, queue: seq<Event>)

  datatype SetupStep = SpawnWorker(ok: bool) | SpawnReaper(ok: bool) | RegisterCancellation | Prepare(ok: bool)
                     | OpenGate | GateBroken | DropSender

  datatype WaitStep = CheckCancellation | PollTimer | CheckDone | Receive | ReceiveClosed

  datatype GraceStep = GraceJoined | GraceReceive | GraceExpire | GraceClosed

  /** `Unwind` is a worker thread that panics before it could send its result. */
  datatype ThreadStep = LeaveGate | OperationEnds(end: OperationEnd) | Report | Unwind | Exit(panicked: bool) | Join

  datatype SourceStep = RequestCancellation | CallCancelWaker | FireTimer(ok: bool) | CallTimerWaker

  datatype Step =
    | BySetup(setup: SetupStep) | ByLoop(wait: WaitStep) | ByCleanup(grace: GraceStep)
    | ByThread(thread: ThreadStep) | BySource(source: SourceStep)

  function Initial(c: Setup): System {
    System(Caller(SpawningWorker, false, true, false, false, None, false, []),
           Threads(NotSpawned, NoReaper, 0, None, None, false),
           Sources(false, Unregistered, if c.timed then Armed else NoTimer, Unregistered),
           [])
  }

  /** Some thread still holds a strong sender, so the channel is open and weak senders upgrade. */
  predicate Open(s: System) {
    || s.caller.holdsSender || s.threads.reaper.Joining?
    || s.threads.worker.AtGate? || s.threads.worker.Operating? || s.threads.worker.Reporting?
  }

  function At(k: Caller, stage: Stage): Caller { k.(stage := stage) }

  // --- The calling thread until the gate is open ---------------------------------------------------

  predicate SetupEnabled(s: System, step: SetupStep) {
    var stage := s.caller.stage;
    match step
    case SpawnWorker(_) => stage.SpawningWorker?
    case SpawnReaper(_) => stage.SpawningReaper?
    case RegisterCancellation => stage.Registering?
    case Prepare(_) => stage.Preparing?
    case OpenGate => stage.Releasing? && s.threads.worker.AtGate?
    case GateBroken => stage.Releasing? && !s.threads.worker.AtGate?
    case DropSender => stage.DroppingSender?
  }

  function SetupNext(c: Setup, s: System, step: SetupStep): System
    requires SetupEnabled(s, step)
  {
    var k := s.caller;
    match step
    case SpawnWorker(ok) =>
      if ok then s.(caller := At(k, SpawningReaper), threads := s.threads.(worker := AtGate))
      else s.(caller := At(k, Done(SpawnFailed)))
    case SpawnReaper(ok) =>
      if ok then s.(caller := At(k, Registering), threads := s.threads.(reaper := Joining))
      else s.(caller := k.(stage := Done(SpawnFailed), gateDropped := true))
    case RegisterCancellation =>
      s.(caller := At(k, Preparing),
         queue := if c.cancellable && s.sources.cancelled then s.queue + [Wake] else s.queue,
         sources := if c.cancellable && !s.sources.cancelled then s.sources.(cancelWaker := Registered) else s.sources)
    case Prepare(ok) =>
      s.(caller :=
           if ok then k.(stage := Releasing, admitted := true)
           else k.(stage := Done(AdmissionRejected), gateDropped := true))
    case OpenGate =>
      s.(caller := At(k, DroppingSender), threads := s.threads.(worker := Operating, calls := s.threads.calls + 1))
    case GateBroken => s.(caller := At(k, Done(ChannelClosed)))
    case DropSender => s.(caller := k.(stage := CheckingCancellation, holdsSender := false))
  }

  // --- The event loop --------------------------------------------------------------------------------

  predicate LoopEnabled(s: System, step: WaitStep) {
    var stage := s.caller.stage;
    match step
    case CheckCancellation => stage.CheckingCancellation?
    case PollTimer => stage.PollingTimer?
    case CheckDone => stage.CheckingDone?
    case Receive => stage.Receiving? && s.queue != []
    case ReceiveClosed => stage.Receiving? && s.queue == [] && !Open(s)
  }

  /** The loop has taken event `e`. */
  function Received(k: Caller, e: Event): Caller {
    match e
    case Completed(r) => k.(completed := Some(r), seen := k.seen + [e], stage := CheckingCancellation)
    case Joined(panicked) =>
      k.(joined := true, completed := if panicked then Some(Panicked) else k.completed, seen := k.seen + [e],
         stage := CheckingCancellation)
    case Wake => At(k, CheckingCancellation)
  }

  /** The loop has looked at the cancellation flag. */
  function Looked(k: Caller, stop: bool): Caller {
    if stop then k.(stage := InGrace(Cancellation), tokenCancelled := true) else At(k, PollingTimer)
  }

  /** The loop has polled the timer, if there is one. */
  function Polled(k: Caller, fired: Option<bool>): Caller {
    if fired.Some? then k.(stage := InGrace(if fired.value then Timeout else TimerFailure), tokenCancelled := true)
    else At(k, CheckingDone)
  }

  /** The loop has looked at what it received so far. */
  function Examined(k: Caller): Caller {
    At(k, if k.joined && k.completed.Some? then Done(CompletedWith(k.completed.value)) else Receiving)
  }

  function Answer(t: Timer): Option<bool> { if t.Fired? then Some(t.ok) else None }

  function LoopNext(c: Setup, s: System, step: WaitStep): System
    requires LoopEnabled(s, step)
  {
    var k := s.caller;
    match step
    case CheckCancellation => s.(caller := Looked(k, c.cancellable && s.sources.cancelled))
    case PollTimer =>
      s.(caller := Polled(k, Answer(s.sources.timer)),
         sources := if s.sources.timer.Armed? then s.sources.(timerWaker := Registered) else s.sources)
    case CheckDone => s.(caller := Examined(k))
    case Receive => s.(caller := Received(k, s.queue[0]), queue := s.queue[1..])
    case ReceiveClosed => s.(caller := At(k, Done(ChannelClosed)))
  }

  // --- Cleanup after a stop trigger ------------------------------------------------------------------

  function AfterExit(trigger: Trigger): Outcome { if trigger.TimerFailure? then TimerFailed else Stopped(trigger) }

  predicate CleanupEnabled(c: Setup, s: System, step: GraceStep) {
    && s.caller.stage.InGrace?
    && match step
       case GraceJoined => s.caller.joined
       case GraceReceive => !s.caller.joined && s.queue != []
       case GraceExpire => !s.caller.joined
           && (c.grace.BoundedGrace? || (c.grace.ZeroGrace? && s.queue == [] && Open(s)))
       case GraceClosed => !s.caller.joined && s.queue == [] && !Open(s)
  }

  /** Cleanup looks only for the proof of exit. */
  function Discarded(k: Caller, e: Event): Caller
    requires k.stage.InGrace?
  {
    match e
    case Completed(_) => k.(seen := k.seen + [e])
    case Joined(_) => k.(joined := true, seen := k.seen + [e], stage := Done(AfterExit(k.stage.trigger)))
    case Wake => k
  }

  function CleanupNext(c: Setup, s: System, step: GraceStep): System
    requires CleanupEnabled(c, s, step)
  {
    var k := s.caller;
    match step
    case GraceJoined => s.(caller := At(k, Done(AfterExit(k.stage.trigger))))
    case GraceReceive => s.(caller := Discarded(k, s.queue[0]), queue := s.queue[1..])
    case GraceExpire => s.(caller := At(k, Done(StillRunning(k.stage.trigger))))
    case GraceClosed => s.(caller := At(k, Done(ChannelClosed)))
  }

  // --- Worker and reaper -----------------------------------------------------------------------------

  predicate ThreadEnabled(s: System, step: ThreadStep) {
    var t := s.threads;
    match step
    case LeaveGate => t.worker.AtGate? && s.caller.gateDropped
    case OperationEnds(_) => t.worker.Operating?
    case Report => t.worker.Reporting?
    case Unwind => t.worker.Reporting?
    case Exit(_) => t.worker.Leaving?
    case Join => t.reaper.Joining? && t.worker.Exited?
  }

  function Ended(end: OperationEnd): AttemptResult {
    match end
    case Returns(_) => Succeeded
    case Fails(code) => FailedWith(code)
    case Unwinds => Panicked
  }

  function ThreadNext(s: System, step: ThreadStep): System
    requires ThreadEnabled(s, step)
  {
    var t := s.threads;
    match step
    case LeaveGate => s.(threads := t.(worker := Leaving))
    case OperationEnds(end) =>
      s.(threads := t.(worker := Reporting(Ended(end)), result := Some(Ended(end)),
                       stored := if end.Returns? then Some(end.value) else t.stored))
    case Report =>
      s.(threads := t.(worker := Leaving, reported := true), queue := s.queue + [Completed(t.worker.result)])
    case Unwind => s.(threads := t.(worker := Exited(true)))
    case Exit(panicked) => s.(threads := t.(worker := Exited(panicked)))
    case Join => s.(threads := t.(reaper := JoinReported), queue := s.queue + [Joined(t.worker.panicked)])
  }

  // --- Sources of readiness --------------------------------------------------------------------------

  predicate SourceEnabled(c: Setup, s: System, step: SourceStep) {
    match step
    case RequestCancellation => c.cancellable && !s.sources.cancelled
    case CallCancelWaker => s.sources.cancelWaker.Owed?
    case FireTimer(_) => s.sources.timer.Armed?
    case CallTimerWaker => s.sources.timerWaker.Owed?
  }

  function Due(w: Waker): Waker { if w.Registered? then Owed else w }

  /** A weak sender only delivers while the channel is open. */
  function Woken(s: System): seq<Event> { if Open(s) then s.queue + [Wake] else s.queue }

  function SourceNext(c: Setup, s: System, step: SourceStep): System
    requires SourceEnabled(c, s, step)
  {
    var o := s.sources;
    match step
    case RequestCancellation => s.(sources := o.(cancelled := true, cancelWaker := Due(o.cancelWaker)))
    case CallCancelWaker => s.(sources := o.(cancelWaker := Called), queue := Woken(s))
    case FireTimer(ok) => s.(sources := o.(timer := Fired(ok), timerWaker := Due(o.timerWaker)))
    case CallTimerWaker => s.(sources := o.(timerWaker := Called), queue := Woken(s))
  }

  // --- Runs ------------------------------------------------------------------------------------------

  predicate Enabled(c: Setup, s: System, step: Step) {
    match step
    case BySetup(m) => SetupEnabled(s, m)
    case ByLoop(m) => LoopEnabled(s, m)
    case ByCleanup(m) => CleanupEnabled(c, s, m)
    case ByThread(m) => ThreadEnabled(s, m)
    case BySource(m) => SourceEnabled(c, s, m)
  }

  function Next(c: Setup, s: System, step: Step): System
    requires Enabled(c, s, step)
  {
    match step
    case BySetup(m) => SetupNext(c, s, m)
    case ByLoop(m) => LoopNext(c, s, m)
    case ByCleanup(m) => CleanupNext(c, s, m)
    case ByThread(m) => ThreadNext(s, m)
    case BySource(m) => SourceNext(c, s, m)
  }

  ghost predicate IsRun(c: Setup, run: seq<System>, steps: seq<Step>) {
    && |run| == |steps| + 1
    && run[0] == Initial(c)
    && forall i :: 0 <= i < |steps| ==> Enabled(c, run[i], steps[i]) && run[i + 1] == Next(c, run[i], steps[i])
  }
}
