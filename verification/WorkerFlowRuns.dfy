/**
 What every interleaving of a worker flow keeps, and the two results about whole flows: the
 program never panics on its slot or its bookkeeping, and every flow ends as the worker loop does.
 */
module WorkerFlowRuns {
  import opened Options
  import opened Time
  import opened FlowModel
  import FlowRuns
  import opened Driving
  import opened RetryLoop
  import opened TimedLoop
  import opened WorkerFacade
  import opened WorkerFlow
  import Protocol = WorkerProtocol
  import WorkerSafety
  import Slots = SharedSlot

  function LastOf(slots: Slots.World): Protocol.System
    requires |slots.attempts| > 0
  {
    slots.attempts[|slots.attempts| - 1]
  }

  predicate WasRejected(s: Protocol.System) { s.caller.stage == Protocol.Done(Protocol.AdmissionRejected) }

  // --- Controller and slot system go together -----------------------------------------------------------

  /** What the calling thread is doing agrees with the slot system, and it has not panicked. */
  ghost predicate Linked(control: Control, slots: Slots.World) {
    match control
    case Resting => slots.main.Between?
    case Launched(_) => slots.main.Attempting? && |slots.attempts| > 0 && !WasRejected(LastOf(slots))
    case Rejected(_) => slots.main.Attempting? && |slots.attempts| > 0 && WasRejected(LastOf(slots))
    case Reported(_, r) =>
      && slots.main.Returned? && Slots.HasReturned(slots) && Slots.LastOutcome(slots) == r.outcome
      && (r.outcome == Protocol.CompletedWith(Protocol.Succeeded) ==> r.stored == LastOf(slots).threads.stored)
    case Finished(t) =>
      slots.main.Ended? && (t.Success? ==> slots.main.taken.Some? && slots.main.taken.value.value == t.value)
    case Broken => false
  }

  ghost predicate LinkInv(env: Setting, w: World) {
    Slots.WorldInv(SetupOf(env), w.slots) && Linked(w.control, w.slots)
  }

  lemma LaunchLinks(env: Setting, w: World)
    requires LinkInv(env, w) && Enabled(env, w, Launch)
    ensures LinkInv(env, LaunchNext(env, w))
  {
    var c := SetupOf(env);
    Slots.WorldStep(c, w.slots, Slots.Finish);
    Slots.WorldStep(c, w.slots, Slots.StartNext);
    assert !WasRejected(Protocol.Initial(c));
  }

  predicate Admits(step: Protocol.Step) { step.BySetup? && step.setup.Prepare? }

  /** The admission step admits or is refused. */
  lemma AdmissionStep(c: Protocol.Setup, s: Protocol.System, step: Protocol.Step)
    requires WorkerSafety.GateInv(s.caller, s.threads) && Protocol.Enabled(c, s, step) && Admits(step)
    ensures var n := Protocol.Next(c, s, step);
            !s.caller.admitted && !s.caller.stage.Done? && n.caller.admitted == step.setup.ok
            && WasRejected(n) == !step.setup.ok
  {
  }

  predicate SameAdmission(was: Protocol.Caller, now: Protocol.Caller) {
    && now.admitted == was.admitted
    && (now.stage == Protocol.Done(Protocol.AdmissionRejected) <==>
          was.stage == Protocol.Done(Protocol.AdmissionRejected))
  }

  lemma SetupAdmission(c: Protocol.Setup, s: Protocol.System, step: Protocol.SetupStep)
    requires Protocol.SetupEnabled(s, step) && !step.Prepare?
    ensures SameAdmission(s.caller, Protocol.SetupNext(c, s, step).caller)
  {
  }

  lemma LoopAdmission(c: Protocol.Setup, s: Protocol.System, step: Protocol.WaitStep)
    requires Protocol.LoopEnabled(s, step)
    ensures SameAdmission(s.caller, Protocol.LoopNext(c, s, step).caller)
  {
  }

  lemma CleanupAdmission(c: Protocol.Setup, s: Protocol.System, step: Protocol.GraceStep)
    requires Protocol.CleanupEnabled(c, s, step)
    ensures SameAdmission(s.caller, Protocol.CleanupNext(c, s, step).caller)
  {
  }

  /** No other step admits or is refused. */
  lemma OtherStep(c: Protocol.Setup, s: Protocol.System, step: Protocol.Step)
    requires Protocol.Enabled(c, s, step) && !Admits(step)
    ensures SameAdmission(s.caller, Protocol.Next(c, s, step).caller)
  {
    match step
    case BySetup(m) => SetupAdmission(c, s, m);
    case ByLoop(m) => LoopAdmission(c, s, m);
    case ByCleanup(m) => CleanupAdmission(c, s, m);
    case ByThread(_) =>
    case BySource(_) =>
  }

  /** The last attempt before and after a step that is not its admission. */
  ghost predicate Unremarkable(was: Protocol.System, now: Protocol.System) {
    && now.caller.admitted == was.caller.admitted && WasRejected(now) == WasRejected(was)
    && (was.caller.stage.Done? ==> now.caller.stage == was.caller.stage)
    && (was.caller.stage == Protocol.Done(Protocol.CompletedWith(Protocol.Succeeded)) ==>
          now.threads.stored == was.threads.stored)
  }

  lemma StepUnremarkable(c: Protocol.Setup, s: Protocol.System, step: Protocol.Step)
    requires WorkerSafety.Inv(c, s) && Protocol.Enabled(c, s, step) && !Admits(step)
    ensures Unremarkable(s, Protocol.Next(c, s, step))
  {
    OtherStep(c, s, step);
    if s.caller.stage.Done? {
      Slots.ReturnIsFinal(c, s, step);
      Slots.DiscardedIsOver(c, s);
      if Slots.Over(s) { Slots.OverKeepsCaller(c, s, step); }
    }
  }

  /** A step of an attempt that has returned is not its admission. */
  lemma NoLateAdmission(c: Protocol.Setup, slots: Slots.World, k: nat, step: Protocol.Step)
    requires Slots.WorldInv(c, slots) && Slots.Enabled(c, slots, Slots.ByAttempt(k, step))
    requires Admits(step)
    ensures k + 1 == |slots.attempts| && slots.main.Attempting? && !WasRejected(slots.attempts[k])
  {
    AdmissionStep(c, slots.attempts[k], step);
  }

  lemma LastAfterStep(c: Protocol.Setup, slots: Slots.World, k: nat, step: Protocol.Step)
    requires Slots.WorldInv(c, slots) && Slots.Enabled(c, slots, Slots.ByAttempt(k, step))
    ensures var t := Slots.Next(c, slots, Slots.ByAttempt(k, step));
            && Slots.WorldInv(c, t) && t.main == slots.main && |t.attempts| == |slots.attempts| > 0
            && (!Admits(step) ==> Unremarkable(LastOf(slots), LastOf(t)))
  {
    Slots.WorldStep(c, slots, Slots.ByAttempt(k, step));
    if k + 1 == |slots.attempts| && !Admits(step) {
      StepUnremarkable(c, slots.attempts[k], step);
    }
  }

  lemma StaysLinked(control: Control, slots: Slots.World, t: Slots.World)
    requires Linked(control, slots) && t.main == slots.main && |t.attempts| == |slots.attempts| > 0
    requires Unremarkable(LastOf(slots), LastOf(t))
    ensures Linked(control, t)
  {
  }

  lemma ThreadLinks(env: Setting, w: World, k: nat, step: Protocol.Step)
    requires LinkInv(env, w) && Enabled(env, w, ByThread(k, step))
    ensures LinkInv(env, ThreadNext(env, w, k, step))
  {
    var c := SetupOf(env);
    LastAfterStep(c, w.slots, k, step);
    if Admits(step) {
      NoLateAdmission(c, w.slots, k, step);
      AdmissionStep(c, w.slots.attempts[k], step);
    } else {
      StaysLinked(w.control, w.slots, Slots.Next(c, w.slots, Slots.ByAttempt(k, step)));
    }
  }

  lemma ReturnedIsAdmitted(c: Protocol.Setup, s: Protocol.System)
    requires WorkerSafety.Inv(c, s) && s.caller.stage.Done?
    ensures s.caller.stage.outcome.SpawnFailed? || WasRejected(s) ||
            (s.caller.admitted && Faithful(Report(s.caller.stage.outcome, s.threads.stored)))
    ensures s.caller.stage.outcome.SpawnFailed? ==> !s.caller.admitted
  {
  }

  lemma ReturnLinks(env: Setting, w: World)
    requires LinkInv(env, w) && Enabled(env, w, Return)
    ensures LinkInv(env, ReturnNext(env, w))
  {
    var c := SetupOf(env);
    Slots.WorldStep(c, w.slots, Slots.Conclude);
    var concluded := Slots.Next(c, w.slots, Slots.Conclude);
    Slots.WorldStep(c, concluded, Slots.Finish);
    ReturnedIsAdmitted(c, LastOf(w.slots));
  }

  lemma FailuresMayRetry(r: AttemptReport)
    ensures IsFailure(EndOf(r)) ==> Slots.MayRetry(r.outcome)
  {
  }

  lemma GoOnLinks(env: Setting, w: World, i: Iteration)
    requires LinkInv(env, w) && w.control.Reported?
    requires i.Continue? ==> Slots.MayRetry(w.control.report.outcome)
    requires i.Last? ==> !i.terminal.Success?
    ensures LinkInv(env, GoOn(env, w, i))
  {
    Slots.WorldStep(SetupOf(env), w.slots, if i.Last? then Slots.Finish else Slots.Retry);
  }

  /** A reported success is in the slot. */
  lemma SlotHoldsSuccess(env: Setting, w: World)
    requires LinkInv(env, w) && w.control.Reported?
    requires w.control.report.outcome == Protocol.CompletedWith(Protocol.Succeeded)
    ensures w.slots.slot.Some? && Some(w.slots.slot.value.value) == w.control.report.stored
  {
    Slots.DiscardedIsOver(SetupOf(env), LastOf(w.slots));
  }

  lemma TakeLinks(env: Setting, w: World, finished: Instant)
    requires LinkInv(env, w) && w.control.Reported? && w.flow.budget.active.Some?
    requires w.control.report.outcome == Protocol.CompletedWith(Protocol.Succeeded)
    ensures LinkInv(env, TakeNext(env, w, finished))
  {
    SlotHoldsSuccess(env, w);
    Slots.WorldStep(SetupOf(env), w.slots, Slots.Finish);
    Slots.WorldStep(SetupOf(env), w.slots, Slots.Take);
  }

  lemma ConcludeLinks(env: Setting, w: World)
    requires LinkInv(env, w) && Follows(env, w) && Enabled(env, w, Conclude)
    ensures LinkInv(env, ConcludeNext(env, w))
  {
    ReportedIsActive(env, w);
    var report, row := w.control.report, AsTimed(env.cancellable, w.rows[|w.rows| - 1]);
    OnlySuccessReturns(report);
    if row.end.Returned? {
      TakeLinks(env, w, row.finished);
    } else {
      FailuresMayRetry(report);
      SettledCounts(env.cfg, w.flow, w.control.timeout, row);
      GoOnLinks(env, w, Settled(env.cfg, w.flow, w.control.timeout, row));
    }
  }

  // --- The flow follows the sequential iteration ---------------------------------------------------------

  /** From the start of an iteration to its admission, as the sequential loop does it. */
  function Admission(cfg: Config, f: Flow, a: Answers): Step<Option<Timeout>> {
    match LaunchStep(cfg, f, a)
    case Stop(g, e) => Stop(g, e)
    case Go(g, timeout) =>
      match CommitStep(cfg, g, timeout, a.commit)
      case Stop(h, e) => Stop(h, e)
      case Go(h, _) => Go(h, timeout)
  }

  lemma AdmissionIsTimed(cfg: Config, cancellable: bool, f: Flow, a: Answers, report: AttemptReport)
    ensures TimedAdmit(cfg, f, AsTimed(cancellable, RowOf(a, false, report))) == Admission(cfg, f, a)
  {
  }

  lemma SpawnFailureIsTimed(cfg: Config, cancellable: bool, f: Flow, a: Answers, report: AttemptReport)
    requires LaunchStep(cfg, f, a).Go?
    ensures var s := InfrastructureStop(ClearOverlay(LaunchStep(cfg, f, a).flow), WorkerSpawnFailed, a.spawn);
            s.Stop? && TimedAdmit(cfg, f, AsTimed(cancellable, RowOf(a, true, report))) == Stop(s.flow, s.error)
  {
  }

  /** How far the flow has come in its iteration. */
  ghost predicate Follows(env: Setting, w: World) {
    var k := |w.rows|;
    match w.control
    case Launched(timeout) =>
      && |w.slots.attempts| > 0
      && (if LastOf(w.slots).caller.admitted then Admission(env.cfg, w.idle, env.answers(k)) == Go(w.flow, timeout)
          else LaunchStep(env.cfg, w.idle, env.answers(k)) == Go(w.flow, timeout))
    case Rejected(e) => Admission(env.cfg, w.idle, env.answers(k)) == Stop(w.flow, e)
    case Reported(timeout, r) =>
      && k > 0 && w.rows[k - 1] == RowOf(env.answers(k - 1), false, r)
      && Admission(env.cfg, w.idle, env.answers(k - 1)) == Go(w.flow, timeout)
    case _ => true
  }

  lemma ReportedIsActive(env: Setting, w: World)
    requires Follows(env, w) && w.control.Reported?
    ensures w.rows != [] && w.rows[|w.rows| - 1].report == w.control.report && w.flow.budget.active.Some?
  {
    AdmissionIsTimed(env.cfg, env.cancellable, w.idle, env.answers(|w.rows| - 1), w.control.report);
  }

  lemma AdmissionFollows(env: Setting, w: World, k: nat, step: Protocol.Step)
    requires LinkInv(env, w) && Follows(env, w) && Enabled(env, w, ByThread(k, step)) && Admits(step)
    ensures Follows(env, ThreadNext(env, w, k, step))
  {
    NoLateAdmission(SetupOf(env), w.slots, k, step);
    AdmissionStep(SetupOf(env), w.slots.attempts[k], step);
  }

  lemma SameAdmissionFollows(env: Setting, w: World, slots: Slots.World)
    requires Follows(env, w) && |slots.attempts| == |w.slots.attempts| > 0
    requires Unremarkable(LastOf(w.slots), LastOf(slots))
    ensures Follows(env, w.(slots := slots))
  {
  }

  lemma OtherStepFollows(env: Setting, w: World, k: nat, step: Protocol.Step)
    requires LinkInv(env, w) && Follows(env, w) && Enabled(env, w, ByThread(k, step)) && !Admits(step)
    ensures Follows(env, ThreadNext(env, w, k, step))
  {
    LastAfterStep(SetupOf(env), w.slots, k, step);
    SameAdmissionFollows(env, w, Slots.Next(SetupOf(env), w.slots, Slots.ByAttempt(k, step)));
  }

  lemma ReturnFollows(env: Setting, w: World)
    requires LinkInv(env, w) && Follows(env, w) && Enabled(env, w, Return)
    ensures Follows(env, ReturnNext(env, w))
  {
    ReturnedIsAdmitted(SetupOf(env), LastOf(w.slots));
  }

  // --- Counting calls over all threads -----------------------------------------------------------------

  /** How often operations were entered, over all workers. */
  ghost function Calls(attempts: seq<Protocol.System>): nat {
    if attempts == [] then 0 else Calls(attempts[..|attempts| - 1]) + attempts[|attempts| - 1].threads.calls
  }

  ghost function Admitted(attempts: seq<Protocol.System>): nat {
    if attempts == [] then 0
    else Admitted(attempts[..|attempts| - 1]) + (if attempts[|attempts| - 1].caller.admitted then 1 else 0)
  }

  lemma {:induction false} AdmittedElsewhere(attempts: seq<Protocol.System>, k: nat, s: Protocol.System)
    requires k < |attempts| && s.caller.admitted == attempts[k].caller.admitted
    ensures Admitted(attempts[k := s]) == Admitted(attempts)
  {
    var n := |attempts| - 1;
    if k < n {
      AdmittedElsewhere(attempts[..n], k, s);
      assert attempts[k := s][..n] == attempts[..n][k := s];
    } else {
      assert attempts[k := s][..n] == attempts[..n];
    }
  }

  lemma AdmittedLast(attempts: seq<Protocol.System>, s: Protocol.System)
    ensures Admitted(attempts + [s]) == Admitted(attempts) + (if s.caller.admitted then 1 else 0)
    ensures |attempts| > 0 && !attempts[|attempts| - 1].caller.admitted ==>
              Admitted(attempts[|attempts| - 1 := s]) == Admitted(attempts) + (if s.caller.admitted then 1 else 0)
  {
    assert (attempts + [s])[..|attempts|] == attempts;
    if |attempts| > 0 {
      var n := |attempts| - 1;
      assert attempts[n := s][..n] == attempts[..n];
    }
  }

  /** An attempt that has returned has entered its operation once if it was admitted, and never otherwise. */
  lemma {:induction false} CallsAreAdmissions(c: Protocol.Setup, attempts: seq<Protocol.System>)
    requires forall k :: 0 <= k < |attempts| ==>
               WorkerSafety.Inv(c, attempts[k]) && attempts[k].caller.stage.Done?
    ensures Calls(attempts) == Admitted(attempts)
  {
    if attempts != [] {
      var n := |attempts| - 1;
      CallsAreAdmissions(c, attempts[..n]);
      CalledOnce(c, attempts[n]);
    }
  }

  lemma CalledOnce(c: Protocol.Setup, s: Protocol.System)
    requires WorkerSafety.Inv(c, s) && s.caller.stage.Done?
    ensures s.threads.calls == if s.caller.admitted then 1 else 0
  {
  }

  /** Every admission counted by the controller is that of one attempt. */
  ghost predicate CountInv(w: World) { Admitted(w.slots.attempts) == w.flow.budget.attempts }

  lemma LaunchCounts(cfg: Config, f: Flow, a: Answers)
    ensures SameCount(f, LaunchStep(cfg, f, a).flow)
  {
    FlowRuns.BeforeCounts(cfg, f, a.before);
    var announced := BeforeAttemptStep(cfg, f, a.before);
    if announced.Go? {
      assert SameCount(f, PrepareAttemptStep(cfg, announced.flow, announced.value).flow);
    }
  }

  lemma CommitCounts(cfg: Config, f: Flow, plan: Option<Timeout>, b: Boundary)
    ensures var s := CommitStep(cfg, f, plan, b); s.flow.budget.attempts == f.budget.attempts + (if s.Go? then 1 else 0)
  {
  }

  lemma LaunchCountStep(env: Setting, w: World)
    requires CountInv(w) && w.control.Resting?
    ensures CountInv(LaunchNext(env, w))
  {
    LaunchCounts(env.cfg, w.flow, env.answers(|w.rows|));
    AdmittedLast(w.slots.attempts, Protocol.Initial(SetupOf(env)));
  }

  lemma ThreadCountStep(env: Setting, w: World, k: nat, step: Protocol.Step)
    requires LinkInv(env, w) && CountInv(w) && Enabled(env, w, ByThread(k, step))
    ensures CountInv(ThreadNext(env, w, k, step))
  {
    var c := SetupOf(env);
    var s := Protocol.Next(c, w.slots.attempts[k], step);
    if Admits(step) {
      NoLateAdmission(c, w.slots, k, step);
      AdmissionStep(c, w.slots.attempts[k], step);
      AdmittedLast(w.slots.attempts, s);
      CommitCounts(env.cfg, w.flow, w.control.timeout, env.answers(|w.rows|).commit);
    } else {
      OtherStep(c, w.slots.attempts[k], step);
      AdmittedElsewhere(w.slots.attempts, k, s);
    }
  }

  lemma GoOnCounts(env: Setting, w: World, i: Iteration)
    requires CountInv(w) && SameCount(w.flow, i.flow)
    ensures CountInv(GoOn(env, w, i))
  {
  }

  lemma TakeCounts(env: Setting, w: World, finished: Instant)
    requires CountInv(w) && w.flow.budget.active.Some?
    ensures CountInv(TakeNext(env, w, finished))
  {
    assert SameCount(w.flow, FinishSuccessStep(w.flow, finished).flow);
  }

  lemma ConcludeCountStep(env: Setting, w: World)
    requires CountInv(w) && w.control.Reported?
    ensures CountInv(ConcludeNext(env, w))
  {
    if w.flow.budget.active.Some? && w.rows != [] {
      var row := AsTimed(env.cancellable, w.rows[|w.rows| - 1]);
      SettledCounts(env.cfg, w.flow, w.control.timeout, row);
      TakeCounts(env, w, row.finished);
      GoOnCounts(env, w, Settled(env.cfg, w.flow, w.control.timeout, row));
    }
  }

  lemma ReturnCountStep(env: Setting, w: World)
    requires CountInv(w) && Enabled(env, w, Return)
    ensures CountInv(ReturnNext(env, w))
  {
  }

  lemma CountStep(env: Setting, w: World, m: Move)
    requires LinkInv(env, w) && CountInv(w) && Enabled(env, w, m)
    ensures CountInv(Next(env, w, m))
  {
    match m
    case Launch => LaunchCountStep(env, w);
    case ByThread(k, step) => ThreadCountStep(env, w, k, step);
    case Return => ReturnCountStep(env, w);
    case Conclude => ConcludeCountStep(env, w);
  }

  // --- Every run keeps all of this ------------------------------------------------------------

  ghost predicate WorldInv(env: Setting, w: World) { LinkInv(env, w) && Follows(env, w) && CountInv(w) }

  lemma LaunchFollows(env: Setting, w: World)
    requires LinkInv(env, w) && w.control.Resting?
    ensures Follows(env, LaunchNext(env, w))
  {
  }

  lemma ConcludeFollows(env: Setting, w: World)
    requires w.control.Reported?
    ensures Follows(env, ConcludeNext(env, w))
  {
  }

  lemma LinkStep(env: Setting, w: World, m: Move)
    requires WorldInv(env, w) && Enabled(env, w, m)
    ensures LinkInv(env, Next(env, w, m))
  {
    match m
    case Launch => LaunchLinks(env, w);
    case ByThread(k, step) => ThreadLinks(env, w, k, step);
    case Return => ReturnLinks(env, w);
    case Conclude => ConcludeLinks(env, w);
  }

  lemma FollowStep(env: Setting, w: World, m: Move)
    requires WorldInv(env, w) && Enabled(env, w, m)
    ensures Follows(env, Next(env, w, m))
  {
    match m
    case Launch => LaunchFollows(env, w);
    case ByThread(k, step) =>
      if Admits(step) { AdmissionFollows(env, w, k, step); } else { OtherStepFollows(env, w, k, step); }
    case Return => ReturnFollows(env, w);
    case Conclude => ConcludeFollows(env, w);
  }

  lemma WorldStep(env: Setting, w: World, m: Move)
    requires WorldInv(env, w) && Enabled(env, w, m)
    ensures WorldInv(env, Next(env, w, m))
  {
    LinkStep(env, w, m);
    FollowStep(env, w, m);
    CountStep(env, w, m);
  }

  lemma {:induction false} RunInv(env: Setting, startedAt: Instant, run: seq<World>, moves: seq<Move>, i: nat)
    requires IsRun(env, startedAt, run, moves) && i < |run|
    ensures WorldInv(env, run[i])
  {
    if i > 0 {
      RunInv(env, startedAt, run, moves, i - 1);
      WorldStep(env, run[i - 1], moves[i - 1]);
    }
  }

  // --- The whole flow follows the sequential loop --------------------------------------------------------

  /** A script of the sequential loop that begins with these rows. */
  ghost predicate Extends(script: nat -> WorkerRow, rows: seq<WorkerRow>) {
    forall k :: 0 <= k < |rows| ==> script(k) == rows[k]
  }

  /** Some script that does. */
  ghost function ScriptOf(env: Setting, rows: seq<WorkerRow>): (script: nat -> WorkerRow)
    ensures Extends(script, rows)
  {
    (k: nat) => if k < |rows| then rows[k] else RowOf(env.answers(k), false, NO_REPORT)
  }

  /** The sequential loop from flow `f` on, after `k` iterations. */
  ghost function Rest(env: Setting, script: nat -> WorkerRow): (Flow, nat) -> Ending {
    (f: Flow, k: nat) => TimedFrom(env.cfg, f, AllTimed(env.cancellable, script), k, f.budget.attempts)
  }

  /** The iteration of the sequential loop from this flow, with this row. */
  ghost function IterationOf(env: Setting, f: Flow, row: WorkerRow): Iteration {
    TimedIterator(env.cfg)(f, AsTimed(env.cancellable, row))
  }

  /** Iteration `i` is what the sequential loop does first from flow `f` on. */
  ghost predicate Unfolds(rest: (Flow, nat) -> Ending, f: Flow, k: nat, i: Iteration) {
    rest(f, k) == if i.Last? then Ending(i.flow, i.terminal, k + 1, i.flow.budget.attempts) else rest(i.flow, k + 1)
  }

  lemma RestUnfolds(env: Setting, script: nat -> WorkerRow, f: Flow, k: nat)
    ensures Unfolds(Rest(env, script), f, k, IterationOf(env, f, script(k)))
  {
    TimedCounting(env.cfg);
    DriveUnfolds(TimedIterator(env.cfg), f, AllTimed(env.cancellable, script), k);
  }

  /** The flow at the start of the iteration under way, and the iterations completed before. */
  function Origin(w: World): Flow { if w.control.Resting? then w.flow else w.idle }

  function Count(w: World): nat { if w.control.Reported? && w.rows != [] then |w.rows| - 1 else |w.rows| }

  ghost predicate Unrolls(env: Setting, script: nat -> WorkerRow, rest: (Flow, nat) -> Ending) {
    forall f: Flow, k: nat {:trigger Unfolds(rest, f, k, IterationOf(env, f, script(k)))} ::
      Unfolds(rest, f, k, IterationOf(env, f, script(k)))
  }

  lemma RestUnrolls(env: Setting, script: nat -> WorkerRow)
    ensures Unrolls(env, script, Rest(env, script))
  {
    forall f: Flow, k: nat ensures Unfolds(Rest(env, script), f, k, IterationOf(env, f, script(k))) {
      RestUnfolds(env, script, f, k);
    }
  }

  /** What is left for the sequential loop to do is what is left to do here. */
  ghost predicate Tracks(rest: (Flow, nat) -> Ending, whole: Ending, w: World) {
    && (w.control.Finished? ==> whole == Ending(w.flow, w.control.terminal, |w.rows|, w.flow.budget.attempts))
    && (!w.control.Finished? ==> whole == rest(Origin(w), Count(w)))
  }

  /** The flow has ended, or gone on, just as iteration `i` says. */
  predicate Reached(w: World, i: Iteration) {
    && w.flow == i.flow
    && w.control == if i.Last? then Finished(i.terminal) else Resting
  }

  /** No iteration was completed. */
  predicate Unmoved(w: World, next: World) {
    && next.control.Finished? == w.control.Finished?
    && (if w.control.Finished? then next.control == w.control && next.flow == w.flow && next.rows == w.rows
        else Origin(next) == Origin(w) && Count(next) == Count(w))
  }

  lemma StoppedIteration(cfg: Config, f: Flow, row: TimedRow)
    requires TimedAdmit(cfg, f, row).Stop?
    ensures TimedIterator(cfg)(f, row) ==
            Last(TimedAdmit(cfg, f, row).flow, Failure(TimedAdmit(cfg, f, row).error), false)
  {
  }

  lemma AdmittedIteration(cfg: Config, f: Flow, row: TimedRow)
    requires TimedAdmit(cfg, f, row).Go?
    ensures TimedIterator(cfg)(f, row) == Settled(cfg, TimedAdmit(cfg, f, row).flow, TimedAdmit(cfg, f, row).value, row)
  {
  }

  /** The move completed the iteration of the sequential loop that was under way. */
  ghost predicate Completed(env: Setting, w: World, next: World) {
    !w.control.Finished? && |next.rows| == Count(w) + 1
        && Reached(next, IterationOf(env, Origin(w), next.rows[Count(w)]))
  }

  lemma LaunchAdvances(env: Setting, w: World)
    requires w.control.Resting?
    ensures Unmoved(w, LaunchNext(env, w)) || Completed(env, w, LaunchNext(env, w))
  {
    var a := env.answers(|w.rows|);
    if LaunchStep(env.cfg, w.flow, a).Stop? {
      AdmissionIsTimed(env.cfg, env.cancellable, w.flow, a, NO_REPORT);
      StoppedIteration(env.cfg, w.flow, AsTimed(env.cancellable, RowOf(a, false, NO_REPORT)));
    }
  }

  lemma RejectionCompletes(env: Setting, w: World)
    requires Follows(env, w) && w.control.Rejected? && Enabled(env, w, Return)
    ensures var next, row := ReturnNext(env, w), RowOf(env.answers(|w.rows|), false, NO_REPORT);
            next.rows == w.rows + [row] && Reached(next, IterationOf(env, w.idle, row))
  {
    var a := env.answers(|w.rows|);
    AdmissionIsTimed(env.cfg, env.cancellable, w.idle, a, NO_REPORT);
    StoppedIteration(env.cfg, w.idle, AsTimed(env.cancellable, RowOf(a, false, NO_REPORT)));
  }

  lemma SpawnFailureCompletes(env: Setting, w: World)
    requires Follows(env, w) && w.control.Launched? && Enabled(env, w, Return)
    requires Slots.LastOutcome(w.slots).SpawnFailed? && !LastOf(w.slots).caller.admitted
    ensures var next, row := ReturnNext(env, w), RowOf(env.answers(|w.rows|), true, NO_REPORT);
            next.rows == w.rows + [row] && Reached(next, IterationOf(env, w.idle, row))
  {
    var a := env.answers(|w.rows|);
    SpawnFailureIsTimed(env.cfg, env.cancellable, w.idle, a, NO_REPORT);
    StoppedIteration(env.cfg, w.idle, AsTimed(env.cancellable, RowOf(a, true, NO_REPORT)));
  }

  /** The iteration that a reported attempt belongs to, once it is settled. */
  lemma ReportedIteration(env: Setting, w: World)
    requires Follows(env, w) && w.control.Reported?
    ensures w.rows != [] && w.rows[|w.rows| - 1].report == w.control.report && w.flow.budget.active.Some?
    ensures var row := w.rows[|w.rows| - 1];
            IterationOf(env, w.idle, row) == Settled(env.cfg, w.flow, w.control.timeout, AsTimed(env.cancellable, row))
  {
    var row := w.rows[|w.rows| - 1];
    ReportedIsActive(env, w);
    AdmissionIsTimed(env.cfg, env.cancellable, w.idle, env.answers(|w.rows| - 1), w.control.report);
    AdmittedIteration(env.cfg, w.idle, AsTimed(env.cancellable, row));
  }

  /** Taking the value from the slot is what settling the reported value amounts to. */
  lemma TakeReaches(env: Setting, w: World, row: TimedRow)
    requires w.control.Reported? && w.flow.budget.active.Some?
    requires w.slots.slot.Some? && row.end == Returned(w.slots.slot.value.value)
    ensures var next := TakeNext(env, w, row.finished);
            next.rows == w.rows && Reached(next, Settled(env.cfg, w.flow, w.control.timeout, row))
  {
  }

  lemma GoOnReaches(env: Setting, w: World, i: Iteration)
    ensures GoOn(env, w, i).rows == w.rows && Reached(GoOn(env, w, i), i)
  {
  }

  lemma ConclusionReaches(env: Setting, w: World, row: TimedRow)
    requires w.control.Reported? && w.flow.budget.active.Some? && w.rows != []
    requires w.rows[|w.rows| - 1].report == w.control.report && row == AsTimed(env.cancellable, w.rows[|w.rows| - 1])
    requires row.end.Returned? ==> w.slots.slot.Some? && Some(w.slots.slot.value.value) == w.control.report.stored
    ensures var next := ConcludeNext(env, w);
            next.rows == w.rows && Reached(next, Settled(env.cfg, w.flow, w.control.timeout, row))
  {
    OnlySuccessReturns(w.control.report);
    if row.end.Returned? {
      TakeReaches(env, w, row);
    } else {
      GoOnReaches(env, w, Settled(env.cfg, w.flow, w.control.timeout, row));
    }
  }

  lemma ConclusionAdvances(env: Setting, w: World, next: World, i: Iteration)
    requires w.control.Reported? && w.rows != [] && next.rows == w.rows && Reached(next, i)
    requires i == IterationOf(env, w.idle, w.rows[|w.rows| - 1])
    ensures Completed(env, w, next)
  {
  }

  lemma ConcludeAdvances(env: Setting, w: World)
    requires LinkInv(env, w) && Follows(env, w) && w.control.Reported?
    ensures Completed(env, w, ConcludeNext(env, w))
  {
    ReportedIteration(env, w);
    var row := w.rows[|w.rows| - 1];
    OnlySuccessReturns(row.report);
    if EndOf(row.report).Returned? {
      SlotHoldsSuccess(env, w);
    }
    ConclusionReaches(env, w, AsTimed(env.cancellable, row));
    ConclusionAdvances(env, w, ConcludeNext(env, w), IterationOf(env, w.idle, row));
  }

  lemma ReturnAdvances(env: Setting, w: World)
    requires Follows(env, w) && Enabled(env, w, Return)
    requires Slots.LastOutcome(w.slots).SpawnFailed? ==> !LastOf(w.slots).caller.admitted
    ensures Unmoved(w, ReturnNext(env, w)) || Completed(env, w, ReturnNext(env, w))
  {
    if w.control.Rejected? {
      RejectionCompletes(env, w);
    } else if Slots.LastOutcome(w.slots).SpawnFailed? {
      SpawnFailureCompletes(env, w);
    }
  }

  lemma ThreadsLeaveIteration(env: Setting, w: World, k: nat, step: Protocol.Step)
    requires Enabled(env, w, ByThread(k, step))
    ensures Unmoved(w, ThreadNext(env, w, k, step))
  {
  }

  lemma MoveAdvances(env: Setting, w: World, m: Move)
    requires LinkInv(env, w) && Follows(env, w) && Enabled(env, w, m)
    ensures Unmoved(w, Next(env, w, m)) || Completed(env, w, Next(env, w, m))
  {
    match m
    case Launch => LaunchAdvances(env, w);
    case ByThread(k, step) => ThreadsLeaveIteration(env, w, k, step);
    case Return =>
      ReturnedIsAdmitted(SetupOf(env), LastOf(w.slots));
      ReturnAdvances(env, w);
    case Conclude => ConcludeAdvances(env, w);
  }

  lemma AdvanceTracks(rest: (Flow, nat) -> Ending, whole: Ending, w: World, next: World, i: Iteration)
    requires Tracks(rest, whole, w)
    requires Unmoved(w, next) || (!w.control.Finished? && |next.rows| == Count(w) + 1 && Reached(next, i)
                                  && Unfolds(rest, Origin(w), Count(w), i))
    ensures Tracks(rest, whole, next)
  {
  }

  /** Any script that begins with the rows the iterations came to tells how the flow goes on. */
  lemma NextTracks(env: Setting, script: nat -> WorkerRow, rest: (Flow, nat) -> Ending, whole: Ending, w: World,
      next: World)
    requires Unrolls(env, script, rest) && Tracks(rest, whole, w) && Extends(script, next.rows)
    requires Unmoved(w, next) || Completed(env, w, next)
    ensures Tracks(rest, whole, next)
  {
    var i := IterationOf(env, Origin(w), script(Count(w)));
    assert Unfolds(rest, Origin(w), Count(w), i);
    AdvanceTracks(rest, whole, w, next, i);
  }

  lemma RowsGrow(env: Setting, w: World, m: Move)
    requires Enabled(env, w, m)
    ensures w.rows <= Next(env, w, m).rows
  {
  }

  lemma MoveTracks(env: Setting, script: nat -> WorkerRow, rest: (Flow, nat) -> Ending, whole: Ending, w: World,
      m: Move)
    requires WorldInv(env, w) && Enabled(env, w, m) && Unrolls(env, script, rest) && Tracks(rest, whole, w)
    requires Extends(script, Next(env, w, m).rows)
    ensures Tracks(rest, whole, Next(env, w, m))
  {
    MoveAdvances(env, w, m);
    NextTracks(env, script, rest, whole, w, Next(env, w, m));
  }

  lemma ExtendsEarlier(env: Setting, script: nat -> WorkerRow, w: World, m: Move)
    requires Enabled(env, w, m) && Extends(script, Next(env, w, m).rows)
    ensures Extends(script, w.rows)
  {
    RowsGrow(env, w, m);
  }

  /** As far as the script and the rows agree, the flow is on the track of the sequential loop. */
  ghost predicate OnTrack(script: nat -> WorkerRow, rest: (Flow, nat) -> Ending, whole: Ending, w: World) {
    Extends(script, w.rows) ==> Tracks(rest, whole, w)
  }

  lemma StaysOnTrack(env: Setting, script: nat -> WorkerRow, rest: (Flow, nat) -> Ending, whole: Ending, w: World,
      m: Move)
    requires WorldInv(env, w) && Enabled(env, w, m) && Unrolls(env, script, rest) && OnTrack(script, rest, whole, w)
    ensures OnTrack(script, rest, whole, Next(env, w, m))
  {
    if Extends(script, Next(env, w, m).rows) {
      ExtendsEarlier(env, script, w, m);
      MoveTracks(env, script, rest, whole, w, m);
    }
  }

  lemma {:induction false} RunOnTrack(env: Setting, startedAt: Instant, run: seq<World>, moves: seq<Move>,
                                      script: nat -> WorkerRow, rest: (Flow, nat) -> Ending, whole: Ending, i: nat)
    requires IsRun(env, startedAt, run, moves) && i < |run| && Unrolls(env, script, rest)
    requires OnTrack(script, rest, whole, run[0])
    ensures OnTrack(script, rest, whole, run[i])
  {
    if i > 0 {
      RunInv(env, startedAt, run, moves, i - 1);
      RunOnTrack(env, startedAt, run, moves, script, rest, whole, i - 1);
      StaysOnTrack(env, script, rest, whole, run[i - 1], moves[i - 1]);
    }
  }

  // --- Theorems about every interleaving of every worker flow ---------------------------------------------

  /** Neither the empty slot nor the bookkeeping of attempts ever makes the calling thread panic. */
  lemma NeverBroken(env: Setting, startedAt: Instant, run: seq<World>, moves: seq<Move>, i: nat)
    requires IsRun(env, startedAt, run, moves) && i < |run|
    ensures !run[i].control.Broken? && !run[i].slots.main.Panicked?
  {
    RunInv(env, startedAt, run, moves, i);
  }

  /** Whenever an operation starts, it is that of the last attempt, and the slot is empty. */
  lemma OperationStartsOnEmptySlot(env: Setting, startedAt: Instant, run: seq<World>, moves: seq<Move>, i: nat, k: nat)
    requires IsRun(env, startedAt, run, moves) && i < |moves|
             && moves[i] == ByThread(k, Protocol.BySetup(Protocol.OpenGate))
    ensures run[i].slots.slot.None? && k == |run[i].slots.attempts| - 1 && run[i].control.Launched?
  {
    RunInv(env, startedAt, run, moves, i);
    Slots.GateFindsSlotEmpty(SetupOf(env), run[i].slots, k);
  }

  /**
   However the threads of all attempts interleave, a flow ends as the sequential worker loop
   does on what its iterations came to: same terminal result, same trace, same count of calls.
   */
  lemma FlowIsLoop(env: Setting, startedAt: Instant, run: seq<World>, moves: seq<Move>, i: nat,
      script: nat -> WorkerRow)
    requires IsRun(env, startedAt, run, moves) && i < |run|
    requires run[i].control.Finished? && Extends(script, run[i].rows)
    ensures TimedFrom(env.cfg, Start(env.cfg, startedAt), AllTimed(env.cancellable, script), 0, 0) ==
            Ending(run[i].flow, run[i].control.terminal, |run[i].rows|, run[i].flow.budget.attempts)
  {
    RestUnrolls(env, script);
    var rest := Rest(env, script);
    RunOnTrack(env, startedAt, run, moves, script, rest, rest(Start(env.cfg, startedAt), 0), i);
  }

  /**
   A flow that succeeds returns the value that the operation of its last attempt returned, which
   was admitted, no matter what earlier attempts left behind or what their threads still do.
   */
  lemma SuccessIsOfLastAttempt(env: Setting, startedAt: Instant, run: seq<World>, moves: seq<Move>, i: nat)
    requires IsRun(env, startedAt, run, moves) && i < |run|
    requires run[i].control.Finished? && run[i].control.terminal.Success?
    ensures var attempts := run[i].slots.attempts;
            && |attempts| > 0
            && var last := |attempts| - 1;
               Slots.TakenFrom(Slots.Tagged(last, run[i].control.terminal.value), last, attempts[last])
  {
    RunInv(env, startedAt, run, moves, i);
  }

  lemma EndedFlowReturned(env: Setting, w: World)
    requires LinkInv(env, w) && w.control.Finished?
    ensures Calls(w.slots.attempts) == Admitted(w.slots.attempts)
  {
    CallsAreAdmissions(SetupOf(env), w.slots.attempts);
  }

  lemma TerminalCounts(env: Setting, startedAt: Instant, run: seq<World>, moves: seq<Move>, i: nat,
      script: nat -> WorkerRow)
    requires IsRun(env, startedAt, run, moves) && i < |run|
    requires run[i].control.Finished? && Extends(script, run[i].rows)
    ensures TerminalContext(run[i].control.terminal).attempts == run[i].flow.budget.attempts
  {
    FlowIsLoop(env, startedAt, run, moves, i, script);
    TimedRunSound(env.cfg, startedAt, AllTimed(env.cancellable, script));
  }

  /**
   When a flow ends, the operation has been entered exactly as often, over all threads, as the
   terminal context counts attempts.
   */
  lemma CallsMatchAttempts(env: Setting, startedAt: Instant, run: seq<World>, moves: seq<Move>, i: nat)
    requires IsRun(env, startedAt, run, moves) && i < |run| && run[i].control.Finished?
    ensures Calls(run[i].slots.attempts) == TerminalContext(run[i].control.terminal).attempts
  {
    RunInv(env, startedAt, run, moves, i);
    EndedFlowReturned(env, run[i]);
    TerminalCounts(env, startedAt, run, moves, i, ScriptOf(env, run[i].rows));
  }
}
