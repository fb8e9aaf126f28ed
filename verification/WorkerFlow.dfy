/**
 Whole worker flows: the controller, any number of attempts on their own threads, and the slot
 they share, with the steps of all threads of all attempts interleaved.

 Every such interleaving ends as the sequential worker loop does on the reports its attempts
 made, and a value it returns was taken from the slot and belongs to the last admitted attempt.
 */
module WorkerFlow {
  import opened Options
  import opened Time
  import opened Accounting
  import opened FlowModel
  import opened FlowDeadlines
  import opened FlowRuns
  import opened Driving
  import opened RetryLoop
  import opened TimedLoop
  import opened WorkerFacade
  import Protocol = WorkerProtocol
  import Slots = SharedSlot
  import Selection

  /** What the environment answers to the calling thread during one iteration. */
  datatype Answers = Answers(
    before: BeforeInputs,
    registration: Option<Instant>,
    spawn: Instant,
    commit: Boundary,
    finished: Instant,
    failure: FailureInputs,
    wait: Selection.WaitScript,
    waitEnded: Instant)

  datatype Control =
    | Resting
    | Launched(timeout: Option<Timeout>)
    | Rejected(error: RetryError)
    | Reported(timeout: Option<Timeout>, report: AttemptReport)
    | Finished(terminal: Terminal)
    | Broken

  /** `idle` is the flow at the start of the iteration, `rows` what past iterations came to. */
  datatype World = World(slots: Slots.World, flow: Flow, control: Control, idle: Flow, rows: seq<WorkerRow>)

  datatype Setting = Setting(cfg: Config, cancellable: bool, grace: Protocol.GraceMode, answers: nat -> Answers)

  datatype Move = Launch | ByThread(attempt: nat, step: Protocol.Step) | Return | Conclude

  const NO_REPORT: AttemptReport := Report(Protocol.CompletedWith(Protocol.Panicked), None)

  function SetupOf(env: Setting): Protocol.Setup { Protocol.Setup(env.cancellable, Timed(env.cfg), env.grace) }

  function RowOf(a: Answers, spawnFailed: bool, report: AttemptReport): WorkerRow {
    WorkerRow(a.before, a.registration, if spawnFailed then Some(a.spawn) else None, a.commit, report,
              a.finished, a.failure, a.wait, a.waitEnded)
  }

  function Begun(env: Setting, startedAt: Instant): World {
    World(Slots.Empty(), Start(env.cfg, startedAt), Resting, Start(env.cfg, startedAt), [])
  }

  /** A move of the slot system; one that were not possible would be a panic of the program. */
  function Did(env: Setting, w: Slots.World, m: Slots.Move): Slots.World {
    if Slots.Enabled(SetupOf(env), w, m) then Slots.Next(SetupOf(env), w, m) else w.(main := Slots.Main.Panicked)
  }

  /** The calling thread until it hands the attempt to the executor. */
  function LaunchStep(cfg: Config, f: Flow, a: Answers): Step<Option<Timeout>> {
    match BeforeAttemptStep(cfg, f, a.before)
    case Stop(g, e) => Stop(g, e)
    case Go(g, now) =>
      match PrepareAttemptStep(cfg, g, now)
      case Stop(h, e) => Stop(h, e)
      case Go(h, timeout) =>
        match SetUp(h, timeout, a.registration, None)
        case Stop(k, e) => Stop(k, e)
        case Go(k, _) => Go(k, timeout)
  }

  predicate IsAdmission(w: World, k: nat, step: Protocol.Step) {
    w.control.Launched? && k + 1 == |w.slots.attempts| && step.BySetup? && step.setup.Prepare?
  }

  function Committed(env: Setting, w: World): Step<()>
    requires w.control.Launched?
  {
    CommitStep(env.cfg, w.flow, w.control.timeout, env.answers(|w.rows|).commit)
  }

  predicate Enabled(env: Setting, w: World, m: Move) {
    match m
    case Launch => w.control.Resting?
    case ByThread(k, step) =>
      && Slots.Enabled(SetupOf(env), w.slots, Slots.ByAttempt(k, step))
      && (IsAdmission(w, k, step) ==> step.setup.ok == Committed(env, w).Go?)
    case Return => (w.control.Launched? || w.control.Rejected?) && Slots.HasReturned(w.slots)
    case Conclude => w.control.Reported?
  }

  function Ended(env: Setting, w: World, slots: Slots.World, f: Flow, t: Terminal): World {
    w.(slots := Did(env, slots, Slots.Finish), flow := f, control := Finished(t))
  }

  function LaunchNext(env: Setting, w: World): World {
    var a := env.answers(|w.rows|);
    match LaunchStep(env.cfg, w.flow, a)
    case Stop(f, e) => Ended(env, w.(rows := w.rows + [RowOf(a, false, NO_REPORT)]), w.slots, f, Failure(e))
    case Go(f, timeout) =>
      w.(slots := Did(env, w.slots, Slots.StartNext), idle := w.flow, flow := f, control := Launched(timeout))
  }

  function ThreadNext(env: Setting, w: World, k: nat, step: Protocol.Step): World
    requires Enabled(env, w, ByThread(k, step))
  {
    var t := w.(slots := Did(env, w.slots, Slots.ByAttempt(k, step)));
    if !IsAdmission(w, k, step) then t
    else match Committed(env, w)
      case Go(f, _) => t.(flow := f)
      case Stop(f, e) => t.(flow := f, control := Rejected(e))
  }

  function ReportOf(w: Slots.World): Report
    requires Slots.HasReturned(w)
  {
    Report(Slots.LastOutcome(w), w.attempts[|w.attempts| - 1].threads.stored)
  }

  function ReturnNext(env: Setting, w: World): World
    requires Enabled(env, w, Return)
  {
    var a := env.answers(|w.rows|);
    var slots := Did(env, w.slots, Slots.Conclude);
    if w.control.Rejected? then
      Ended(env, w.(rows := w.rows + [RowOf(a, false, NO_REPORT)]), slots, w.flow, Failure(w.control.error))
    else if Slots.LastOutcome(w.slots).SpawnFailed? then
      var s := InfrastructureStop(ClearOverlay(w.flow), WorkerSpawnFailed, a.spawn);
      assert s.Stop?;
      Ended(env, w.(rows := w.rows + [RowOf(a, true, NO_REPORT)]), slots, s.flow, Failure(s.error))
    else if !Faithful(ReportOf(w.slots)) then w.(control := Broken)
    else
      var report: AttemptReport := ReportOf(w.slots);
      w.(slots := slots, control := Reported(w.control.timeout, report), rows := w.rows + [RowOf(a, false, report)])
  }

  /** The flow ends, or the next attempt may start. */
  function GoOn(env: Setting, w: World, i: Iteration): World {
    match i
    case Last(f, t, _) => Ended(env, w, w.slots, f, t)
    case Continue(f, _) => w.(slots := Did(env, w.slots, Slots.Retry), flow := f, control := Resting)
  }

  /** The flow is finished first; what is returned is whatever the slot holds then. */
  function TakeNext(env: Setting, w: World, finished: Instant): World
    requires w.flow.budget.active.Some?
  {
    match FinishSuccessStep(w.flow, finished)
    case Stop(f, e) => Ended(env, w, w.slots, f, Failure(e))
    case Go(f, context) =>
      if w.slots.slot.None? then w.(control := Broken)
      else w.(slots := Did(env, w.slots, Slots.Take), flow := f,
              control := Finished(Success(w.slots.slot.value.value, context)))
  }

  function ConcludeNext(env: Setting, w: World): World
    requires w.control.Reported?
  {
    if w.flow.budget.active.None? || w.rows == [] then w.(control := Broken)
    else
      var row := AsTimed(env.cancellable, w.rows[|w.rows| - 1]);
      if w.control.report.outcome == Protocol.CompletedWith(Protocol.Succeeded) then TakeNext(env, w, row.finished)
      else GoOn(env, w, Settled(env.cfg, w.flow, w.control.timeout, row))
  }

  function Next(env: Setting, w: World, m: Move): World
    requires Enabled(env, w, m)
  {
    match m
    case Launch => LaunchNext(env, w)
    case ByThread(k, step) => ThreadNext(env, w, k, step)
    case Return => ReturnNext(env, w)
    case Conclude => ConcludeNext(env, w)
  }

  ghost predicate IsRun(env: Setting, startedAt: Instant, run: seq<World>, moves: seq<Move>) {
    && ValidLimits(env.cfg.limits)
    && |run| == |moves| + 1
    && run[0] == Begun(env, startedAt)
    && forall i :: 0 <= i < |moves| ==> Enabled(env, run[i], moves[i]) && run[i + 1] == Next(env, run[i], moves[i])
  }
}
