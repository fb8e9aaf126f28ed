/**
 What every interleaving of a worker attempt keeps, and what follows for whole attempts:
 the operation runs at most once and only after admission, an attempt reported as finished has
 no worker left, the channel never closes early, every interleaving is finite, and the calling
 thread never waits for something that can no longer happen.
 */
module WorkerSafety {
  import opened Options
  import opened WorkerProtocol

  /** The queue without wake-ups. */
  function Core(q: seq<Event>): seq<Event> {
    if q == [] then [] else (if q[0].Wake? then [] else [q[0]]) + Core(q[1..])
  }

  lemma {:induction false} CoreAppend(q: seq<Event>, e: Event)
    ensures Core(q + [e]) == Core(q) + (if e.Wake? then [] else [e])
  {
    if q != [] {
      assert (q + [e])[1..] == q[1..] + [e];
      CoreAppend(q[1..], e);
    }
  }

  // --- Invariants ------------------------------------------------------------------------------------

  predicate BeforeGate(m: Stage) {
    m.SpawningWorker? || m.SpawningReaper? || m.Registering? || m.Preparing? || m.Releasing?
  }

  /** The attempt ended without its operation being admitted. */
  predicate Refused(m: Stage) { m.Done? && (m.outcome.SpawnFailed? || m.outcome.AdmissionRejected?) }

  /** How far the calling thread has come determines what the other threads may have done. */
  ghost predicate GateInv(k: Caller, t: Threads) {
    && (k.stage.SpawningWorker? ==> t.worker.NotSpawned? && t.reaper.NoReaper?)
    && (k.stage.SpawningReaper? ==> t.worker.AtGate? && t.reaper.NoReaper?)
    && (k.stage.Registering? || k.stage.Preparing? || k.stage.Releasing? ==> t.worker.AtGate? && t.reaper.Joining?)
    && (BeforeGate(k.stage) ==> t.calls == 0 && !k.gateDropped)
    && (Refused(k.stage) ==> t.calls == 0 && (t.worker.NotSpawned? || k.gateDropped))
    && (!BeforeGate(k.stage) && !Refused(k.stage) ==> t.calls == 1 && !t.reaper.NoReaper?)
    && (k.admitted <==> k.stage.Releasing? || t.calls == 1)
  }

  /** The worker runs its operation once, and the reaper speaks only after the worker is gone. */
  ghost predicate WorkerInv(t: Threads) {
    && t.calls <= 1
    && (t.calls == 0 ==> t.worker.NotSpawned? || t.worker.AtGate? || t.worker.Leaving? || t.worker.Exited?)
    && (t.calls == 1 ==> !t.worker.NotSpawned? && !t.worker.AtGate?)
    && (t.result.Some? <==> t.calls == 1 && !t.worker.Operating?)
    && (t.worker.Reporting? ==> t.result == Some(t.worker.result))
    && (t.stored.Some? <==> t.result == Some(Succeeded))
    && (t.reported ==> t.result.Some? && !t.worker.Reporting?)
    && (t.calls == 1 && (t.worker.Leaving? || t.worker == Exited(false)) ==> t.reported)
    && (t.reaper.JoinReported? ==> t.worker.Exited?)
  }

  /** What worker and reaper have sent so far, in order. */
  function Reports(t: Threads): seq<Event> {
    (if t.reported && t.result.Some? then [Completed(t.result.value)] else []) +
    (if t.reaper.JoinReported? && t.worker.Exited? then [Joined(t.worker.panicked)] else [])
  }

  predicate Proven(seen: seq<Event>) { seen != [] && seen[|seen| - 1].Joined? }

  /** The result the event loop keeps after the events `seen`; a panic found at the join replaces it. */
  function Kept(seen: seq<Event>): Option<AttemptResult> {
    if seen == [] then None
    else match seen[|seen| - 1]
      case Completed(r) => Some(r)
      case Joined(panicked) => if panicked then Some(Panicked) else Kept(seen[..|seen| - 1])
      case Wake => Kept(seen[..|seen| - 1])
  }

  /** The calling thread has received a prefix of what was sent, in order, and the rest is queued. */
  ghost predicate QueueInv(k: Caller, t: Threads, queue: seq<Event>) {
    k.seen + Core(queue) == Reports(t)
  }

  /** What the calling thread remembers of the events it received. */
  ghost predicate MemoryInv(k: Caller) {
    && k.joined == Proven(k.seen)
    && (!k.stage.InGrace? && !k.stage.Done? ==> k.completed == Kept(k.seen))
    && (k.stage.Receiving? ==> !k.joined)
  }

  /** A readiness the calling thread has not looked at yet is owed a call or announced in the queue. */
  ghost predicate Announced(s: System, w: Waker) { w.Owed? || Wake in s.queue || s.threads.reaper.JoinReported? }

  /** The calling thread has polled the cancellation future and may go on to wait. */
  predicate Offered(m: Stage) { m.Preparing? || m.Releasing? || (!BeforeGate(m) && !Refused(m)) }

  ghost predicate CancelInv(c: Setup, s: System) {
    var o, stage := s.sources, s.caller.stage;
    && (o.cancelled ==> c.cancellable && !o.cancelWaker.Registered?)
    && (o.cancelWaker.Owed? || o.cancelWaker.Called? ==> o.cancelled)
    && (Offered(stage) && c.cancellable && o.cancelWaker.Unregistered? ==> o.cancelled)
    && ((stage.PollingTimer? || stage.CheckingDone? || stage.Receiving?) && o.cancelled ==> Announced(s, o.cancelWaker))
  }

  ghost predicate TimerInv(c: Setup, s: System) {
    var o, stage := s.sources, s.caller.stage;
    && (o.timer.NoTimer? <==> !c.timed)
    && (o.timerWaker.Owed? || o.timerWaker.Called? ==> o.timer.Fired?)
    && (o.timer.Fired? ==> !o.timerWaker.Registered?)
    && (stage.CheckingDone? || stage.Receiving? ==>
          && (c.timed ==> !o.timerWaker.Unregistered?)
          && (o.timer.Fired? ==> Announced(s, o.timerWaker)))
  }

  /** Why the calling thread stopped, and whether it told the operation. */
  ghost predicate TriggerInv(s: System, trigger: Trigger) {
    && s.caller.tokenCancelled
    && (trigger.Cancellation? ==> s.sources.cancelled)
    && (trigger.Timeout? ==> s.sources.timer == Fired(true))
    && (trigger.TimerFailure? ==> s.sources.timer == Fired(false))
  }

  /** What each outcome proves. */
  ghost predicate OutcomeInv(c: Setup, s: System, outcome: Outcome) {
    match outcome
    case ChannelClosed => false
    case CompletedWith(r) =>
      && s.threads.worker.Exited? && !s.caller.tokenCancelled && s.threads.result.Some?
      && r == if s.threads.worker.panicked then Panicked else s.threads.result.value
    case TimerFailed => s.threads.worker.Exited? && TriggerInv(s, TimerFailure)
    case Stopped(t) => s.threads.worker.Exited? && TriggerInv(s, t) && !t.TimerFailure?
    case StillRunning(t) => TriggerInv(s, t) && !c.grace.UnboundedGrace?
    case SpawnFailed => true
    case AdmissionRejected => true
  }

  ghost predicate StopInv(c: Setup, s: System) {
    match s.caller.stage
    case InGrace(t) => TriggerInv(s, t)
    case Done(o) => OutcomeInv(c, s, o)
    case _ => !s.caller.tokenCancelled
  }

  ghost predicate Inv(c: Setup, s: System) {
    && GateInv(s.caller, s.threads) && WorkerInv(s.threads)
    && QueueInv(s.caller, s.threads, s.queue) && MemoryInv(s.caller)
    && CancelInv(c, s) && TimerInv(c, s) && StopInv(c, s)
  }

  // --- Every step keeps the invariants -----------------------------------------------------------------

  lemma GateBySetup(c: Setup, s: System, step: SetupStep)
    requires GateInv(s.caller, s.threads) && SetupEnabled(s, step)
    ensures var n := SetupNext(c, s, step); GateInv(n.caller, n.threads)
  {
  }

  lemma GateByLoop(c: Setup, s: System, step: WaitStep)
    requires GateInv(s.caller, s.threads) && LoopEnabled(s, step)
    ensures var n := LoopNext(c, s, step); GateInv(n.caller, n.threads)
  {
  }

  lemma GateByCleanup(c: Setup, s: System, step: GraceStep)
    requires GateInv(s.caller, s.threads) && CleanupEnabled(c, s, step)
    ensures var n := CleanupNext(c, s, step); GateInv(n.caller, n.threads)
  {
  }

  lemma GateByThread(s: System, step: ThreadStep)
    requires GateInv(s.caller, s.threads) && WorkerInv(s.threads) && ThreadEnabled(s, step)
    ensures var n := ThreadNext(s, step); GateInv(n.caller, n.threads)
  {
  }

  lemma GateStep(c: Setup, s: System, step: Step)
    requires GateInv(s.caller, s.threads) && WorkerInv(s.threads) && Enabled(c, s, step)
    ensures var n := Next(c, s, step); GateInv(n.caller, n.threads)
  {
    match step
    case BySetup(m) => GateBySetup(c, s, m);
    case ByLoop(m) => GateByLoop(c, s, m);
    case ByCleanup(m) => GateByCleanup(c, s, m);
    case ByThread(m) => GateByThread(s, m);
    case BySource(_) =>
  }

  lemma WorkerStep(c: Setup, s: System, step: Step)
    requires GateInv(s.caller, s.threads) && WorkerInv(s.threads) && Enabled(c, s, step)
    ensures WorkerInv(Next(c, s, step).threads)
  {
  }

  lemma QueueBySetup(c: Setup, s: System, step: SetupStep)
    requires GateInv(s.caller, s.threads) && WorkerInv(s.threads) && QueueInv(s.caller, s.threads, s.queue)
             && SetupEnabled(s, step)
    ensures var n := SetupNext(c, s, step); QueueInv(n.caller, n.threads, n.queue)
  {
    CoreAppend(s.queue, Wake);
  }

  lemma QueueByLoop(c: Setup, s: System, step: WaitStep)
    requires QueueInv(s.caller, s.threads, s.queue) && LoopEnabled(s, step)
    ensures var n := LoopNext(c, s, step); QueueInv(n.caller, n.threads, n.queue)
  {
  }

  lemma QueueByCleanup(c: Setup, s: System, step: GraceStep)
    requires QueueInv(s.caller, s.threads, s.queue) && CleanupEnabled(c, s, step)
    ensures var n := CleanupNext(c, s, step); QueueInv(n.caller, n.threads, n.queue)
  {
  }

  lemma QueueByThread(s: System, step: ThreadStep)
    requires WorkerInv(s.threads) && QueueInv(s.caller, s.threads, s.queue) && ThreadEnabled(s, step)
    ensures var n := ThreadNext(s, step); QueueInv(n.caller, n.threads, n.queue)
  {
    match step
    case Report => CoreAppend(s.queue, Completed(s.threads.worker.result));
    case Join =>
      CoreAppend(s.queue, Joined(s.threads.worker.panicked));
      assert Reports(ThreadNext(s, step).threads) == Reports(s.threads) + [Joined(s.threads.worker.panicked)];
    case _ =>
  }

  lemma QueueBySource(c: Setup, s: System, step: SourceStep)
    requires QueueInv(s.caller, s.threads, s.queue) && SourceEnabled(c, s, step)
    ensures var n := SourceNext(c, s, step); QueueInv(n.caller, n.threads, n.queue)
  {
    CoreAppend(s.queue, Wake);
  }

  lemma QueueStep(c: Setup, s: System, step: Step)
    requires GateInv(s.caller, s.threads) && WorkerInv(s.threads) && QueueInv(s.caller, s.threads, s.queue)
             && Enabled(c, s, step)
    ensures var n := Next(c, s, step); QueueInv(n.caller, n.threads, n.queue)
  {
    match step
    case BySetup(m) => QueueBySetup(c, s, m);
    case ByLoop(m) => QueueByLoop(c, s, m);
    case ByCleanup(m) => QueueByCleanup(c, s, m);
    case ByThread(m) => QueueByThread(s, m);
    case BySource(m) => QueueBySource(c, s, m);
  }

  /** Proof of exit is proof of a result: the worker's own, or the panic that its join found. */
  lemma ExitKnowsResult(k: Caller, t: Threads, queue: seq<Event>)
    requires WorkerInv(t) && QueueInv(k, t, queue) && t.calls == 1 && Proven(k.seen)
    ensures t.worker.Exited? && t.result.Some?
    ensures Kept(k.seen) == Some(if t.worker.panicked then Panicked else t.result.value)
  {
    assert k.seen[|k.seen| - 1] == Reports(t)[|k.seen| - 1];
    assert |k.seen| == |Reports(t)|;
    assert k.seen == Reports(t);
    if !t.worker.panicked {
      assert k.seen[..1] == [Completed(t.result.value)];
    }
  }

  /** Until the join has been received, somebody can still send it. */
  lemma ChannelStaysOpen(s: System)
    requires GateInv(s.caller, s.threads) && WorkerInv(s.threads) && QueueInv(s.caller, s.threads, s.queue)
    requires s.threads.calls == 1 && s.queue == [] && !Proven(s.caller.seen)
    ensures s.threads.reaper.Joining?
  {
    assert s.caller.seen == Reports(s.threads);
  }

  lemma MemoryBySetup(c: Setup, s: System, step: SetupStep)
    requires MemoryInv(s.caller) && SetupEnabled(s, step)
    ensures MemoryInv(SetupNext(c, s, step).caller)
  {
  }

  lemma MemoryByEvent(k: Caller, e: Event)
    requires MemoryInv(k) && !e.Wake? && !k.joined && !k.stage.Done?
    ensures !k.stage.InGrace? ==> MemoryInv(Received(k, e))
    ensures k.stage.InGrace? ==> MemoryInv(Discarded(k, e))
  {
    assert (k.seen + [e])[..|k.seen|] == k.seen;
  }

  lemma MemoryByLoop(c: Setup, s: System, step: WaitStep)
    requires GateInv(s.caller, s.threads) && WorkerInv(s.threads) && QueueInv(s.caller, s.threads, s.queue)
    requires MemoryInv(s.caller) && LoopEnabled(s, step)
    ensures MemoryInv(LoopNext(c, s, step).caller)
  {
    match step
    case Receive => if !s.queue[0].Wake? { MemoryByEvent(s.caller, s.queue[0]); }
    case CheckDone => if s.caller.joined { ExitKnowsResult(s.caller, s.threads, s.queue); }
    case _ =>
  }

  lemma MemoryByCleanup(c: Setup, s: System, step: GraceStep)
    requires MemoryInv(s.caller) && CleanupEnabled(c, s, step)
    ensures MemoryInv(CleanupNext(c, s, step).caller)
  {
    if step.GraceReceive? && !s.queue[0].Wake? { MemoryByEvent(s.caller, s.queue[0]); }
  }

  lemma MemoryStep(c: Setup, s: System, step: Step)
    requires GateInv(s.caller, s.threads) && WorkerInv(s.threads) && QueueInv(s.caller, s.threads, s.queue)
    requires MemoryInv(s.caller) && Enabled(c, s, step)
    ensures MemoryInv(Next(c, s, step).caller)
  {
    match step
    case BySetup(m) => MemoryBySetup(c, s, m);
    case ByLoop(m) => MemoryByLoop(c, s, m);
    case ByCleanup(m) => MemoryByCleanup(c, s, m);
    case _ =>
  }

  lemma CancelBySetup(c: Setup, s: System, step: SetupStep)
    requires GateInv(s.caller, s.threads) && CancelInv(c, s) && SetupEnabled(s, step)
    ensures CancelInv(c, SetupNext(c, s, step))
  {
  }

  lemma CancelByLoop(c: Setup, s: System, step: WaitStep)
    requires CancelInv(c, s) && LoopEnabled(s, step)
    ensures CancelInv(c, LoopNext(c, s, step))
  {
  }

  lemma CancelByCleanup(c: Setup, s: System, step: GraceStep)
    requires CancelInv(c, s) && CleanupEnabled(c, s, step)
    ensures CancelInv(c, CleanupNext(c, s, step))
  {
  }

  lemma CancelByThread(c: Setup, s: System, step: ThreadStep)
    requires CancelInv(c, s) && ThreadEnabled(s, step)
    ensures CancelInv(c, ThreadNext(s, step))
  {
  }

  lemma CancelBySource(c: Setup, s: System, step: SourceStep)
    requires GateInv(s.caller, s.threads) && WorkerInv(s.threads) && CancelInv(c, s) && SourceEnabled(c, s, step)
    ensures CancelInv(c, SourceNext(c, s, step))
  {
  }

  lemma CancelStep(c: Setup, s: System, step: Step)
    requires GateInv(s.caller, s.threads) && WorkerInv(s.threads) && CancelInv(c, s) && Enabled(c, s, step)
    ensures CancelInv(c, Next(c, s, step))
  {
    match step
    case BySetup(m) => CancelBySetup(c, s, m);
    case ByLoop(m) => CancelByLoop(c, s, m);
    case ByCleanup(m) => CancelByCleanup(c, s, m);
    case ByThread(m) => CancelByThread(c, s, m);
    case BySource(m) => CancelBySource(c, s, m);
  }

  lemma TimerByLoop(c: Setup, s: System, step: WaitStep)
    requires TimerInv(c, s) && LoopEnabled(s, step)
    ensures TimerInv(c, LoopNext(c, s, step))
  {
  }

  lemma TimerBySetup(c: Setup, s: System, step: SetupStep)
    requires TimerInv(c, s) && SetupEnabled(s, step)
    ensures TimerInv(c, SetupNext(c, s, step))
  {
  }

  lemma TimerByCleanup(c: Setup, s: System, step: GraceStep)
    requires TimerInv(c, s) && CleanupEnabled(c, s, step)
    ensures TimerInv(c, CleanupNext(c, s, step))
  {
  }

  lemma TimerByThread(c: Setup, s: System, step: ThreadStep)
    requires TimerInv(c, s) && ThreadEnabled(s, step)
    ensures TimerInv(c, ThreadNext(s, step))
  {
  }

  lemma TimerBySource(c: Setup, s: System, step: SourceStep)
    requires GateInv(s.caller, s.threads) && WorkerInv(s.threads) && TimerInv(c, s) && SourceEnabled(c, s, step)
    ensures TimerInv(c, SourceNext(c, s, step))
  {
  }

  lemma TimerStep(c: Setup, s: System, step: Step)
    requires GateInv(s.caller, s.threads) && WorkerInv(s.threads) && TimerInv(c, s) && Enabled(c, s, step)
    ensures TimerInv(c, Next(c, s, step))
  {
    match step
    case BySetup(m) => TimerBySetup(c, s, m);
    case ByLoop(m) => TimerByLoop(c, s, m);
    case ByCleanup(m) => TimerByCleanup(c, s, m);
    case ByThread(m) => TimerByThread(c, s, m);
    case BySource(m) => TimerBySource(c, s, m);
  }

  lemma StopBySetup(c: Setup, s: System, step: SetupStep)
    requires GateInv(s.caller, s.threads) && StopInv(c, s) && SetupEnabled(s, step)
    ensures StopInv(c, SetupNext(c, s, step))
  {
  }

  lemma StopByLoop(c: Setup, s: System, step: WaitStep)
    requires GateInv(s.caller, s.threads) && WorkerInv(s.threads) && QueueInv(s.caller, s.threads, s.queue)
    requires MemoryInv(s.caller) && CancelInv(c, s) && StopInv(c, s) && LoopEnabled(s, step)
    ensures StopInv(c, LoopNext(c, s, step))
  {
    match step
    case CheckDone => if s.caller.joined { ExitKnowsResult(s.caller, s.threads, s.queue); }
    case ReceiveClosed => ChannelStaysOpen(s);
    case _ =>
  }

  lemma StopByCleanup(c: Setup, s: System, step: GraceStep)
    requires GateInv(s.caller, s.threads) && WorkerInv(s.threads) && QueueInv(s.caller, s.threads, s.queue)
    requires MemoryInv(s.caller) && StopInv(c, s) && CleanupEnabled(c, s, step)
    ensures StopInv(c, CleanupNext(c, s, step))
  {
    match step
    case GraceJoined => ExitKnowsResult(s.caller, s.threads, s.queue);
    case GraceReceive =>
      if s.queue[0].Joined? { assert s.queue[0] in Reports(s.threads); }
    case GraceExpire =>
    case GraceClosed => ChannelStaysOpen(s);
  }

  lemma StopByThread(c: Setup, s: System, step: ThreadStep)
    requires WorkerInv(s.threads) && StopInv(c, s) && ThreadEnabled(s, step)
    ensures StopInv(c, ThreadNext(s, step))
  {
  }

  lemma StopBySource(c: Setup, s: System, step: SourceStep)
    requires StopInv(c, s) && SourceEnabled(c, s, step)
    ensures StopInv(c, SourceNext(c, s, step))
  {
  }

  lemma InvStep(c: Setup, s: System, step: Step)
    requires Inv(c, s) && Enabled(c, s, step)
    ensures Inv(c, Next(c, s, step))
  {
    GateStep(c, s, step);
    WorkerStep(c, s, step);
    QueueStep(c, s, step);
    MemoryStep(c, s, step);
    CancelStep(c, s, step);
    TimerStep(c, s, step);
    match step
    case BySetup(m) => StopBySetup(c, s, m);
    case ByLoop(m) => StopByLoop(c, s, m);
    case ByCleanup(m) => StopByCleanup(c, s, m);
    case ByThread(m) => StopByThread(c, s, m);
    case BySource(m) => StopBySource(c, s, m);
  }

  // --- Every run ---------------------------------------------------------------------------------------

  lemma {:induction false} RunInv(c: Setup, run: seq<System>, steps: seq<Step>, i: nat)
    requires IsRun(c, run, steps) && i < |run|
    ensures Inv(c, run[i])
  {
    if i > 0 {
      RunInv(c, run, steps, i - 1);
      assert run[i] == Next(c, run[i - 1], steps[i - 1]);
      InvStep(c, run[i - 1], steps[i - 1]);
    }
  }

  /** Induction along a run, for any property that each step between `i` and `j` carries over. */
  lemma {:induction false} CarriedAlong(run: seq<System>, i: nat, j: nat, p: System -> bool)
    requires i <= j < |run| && p(run[i])
    requires forall k :: i <= k < j && p(run[k]) ==> p(run[k + 1])
    ensures p(run[j])
  {
    if i < j {
      CarriedAlong(run, i, j - 1, p);
    }
  }

  /** The operation is entered at most once, only when the attempt was admitted, and never when it was refused. */
  lemma OperationRunsOnceAfterAdmission(c: Setup, run: seq<System>, steps: seq<Step>, i: nat)
    requires IsRun(c, run, steps) && i < |run|
    ensures run[i].threads.calls <= 1
    ensures run[i].threads.calls == 1 ==> run[i].caller.admitted
    ensures Refused(run[i].caller.stage) ==>
             run[i].threads.calls == 0 && !run[i].caller.admitted && run[i].threads.stored.None?
  {
    RunInv(c, run, steps, i);
  }

  /** A worker that is gone, or that will never be let through its gate. */
  predicate NoWorkerLeft(o: Outcome) {
    o.CompletedWith? || o.Stopped? || o.TimerFailed? || o.SpawnFailed? || o.AdmissionRejected?
  }

  /** What a returned attempt proves; a closed channel is never the outcome. */
  lemma ReturnedOutcome(c: Setup, run: seq<System>, steps: seq<Step>, i: nat)
    requires IsRun(c, run, steps) && i < |run| && run[i].caller.stage.Done?
    ensures var s := run[i]; var o := s.caller.stage.outcome;
            && !o.ChannelClosed?
            && (o.CompletedWith? || o.Stopped? || o.TimerFailed? ==> s.threads.worker.Exited?)
            && (o.CompletedWith? ==>
                  && !s.caller.tokenCancelled && s.threads.result.Some?
                  && o.result == if s.threads.worker.panicked then Panicked else s.threads.result.value)
            && (o == CompletedWith(Succeeded) ==> s.threads.stored.Some?)
            && (o.Stopped? || o.TimerFailed? || o.StillRunning? ==> s.caller.tokenCancelled)
            && (o == Stopped(Cancellation) || o == StillRunning(Cancellation) ==> s.sources.cancelled)
            && (o == Stopped(Timeout) || o == StillRunning(Timeout) ==> s.sources.timer == Fired(true))
            && (o == TimerFailed || o == StillRunning(TimerFailure) ==> s.sources.timer == Fired(false))
            && (o.StillRunning? ==> !c.grace.UnboundedGrace?)
  {
    RunInv(c, run, steps, i);
  }

  /** The attempt has returned, its worker is done with, and the slot and the calls are as given. */
  predicate Quiet(s: System, caller: Caller, calls: nat, stored: Option<int>) {
    s.caller == caller && s.threads.calls == calls && s.threads.stored == stored
  }

  lemma QuietStep(c: Setup, s: System, step: Step)
    requires Inv(c, s) && Enabled(c, s, step) && s.caller.stage.Done? && NoWorkerLeft(s.caller.stage.outcome)
    ensures Quiet(Next(c, s, step), s.caller, s.threads.calls, s.threads.stored)
  {
  }

  lemma QuietInRun(c: Setup, run: seq<System>, steps: seq<Step>, k: nat)
    requires IsRun(c, run, steps) && k < |steps|
    requires run[k].caller.stage.Done? && NoWorkerLeft(run[k].caller.stage.outcome)
    ensures Quiet(run[k + 1], run[k].caller, run[k].threads.calls, run[k].threads.stored)
  {
    RunInv(c, run, steps, k);
    QuietStep(c, run[k], steps[k]);
  }

  /**
   Once an attempt has returned, and it did not return because its worker was still running,
   nothing touches the shared slot or enters the operation any more.
   */
  lemma NothingLingers(c: Setup, run: seq<System>, steps: seq<Step>, i: nat, j: nat)
    requires IsRun(c, run, steps) && i <= j < |run|
    requires run[i].caller.stage.Done? && NoWorkerLeft(run[i].caller.stage.outcome)
    ensures run[j].caller == run[i].caller
    ensures run[j].threads.calls == run[i].threads.calls && run[j].threads.stored == run[i].threads.stored
  {
    var caller, calls, stored := run[i].caller, run[i].threads.calls, run[i].threads.stored;
    var p := (s: System) => Quiet(s, caller, calls, stored);
    forall k | i <= k < j && p(run[k]) ensures p(run[k + 1]) {
      QuietInRun(c, run, steps, k);
    }
    CarriedAlong(run, i, j, p);
  }

  lemma Extend(c: Setup, run: seq<System>, steps: seq<Step>, step: Step) returns (longer: seq<System>)
    requires IsRun(c, run, steps) && Enabled(c, run[|steps|], step)
    ensures IsRun(c, longer, steps + [step])
    ensures longer == run + [Next(c, run[|steps|], step)]
  {
    longer := run + [Next(c, run[|steps|], step)];
  }

  lemma AdmittedRun(c: Setup) returns (run: seq<System>, steps: seq<Step>)
    ensures IsRun(c, run, steps)
    ensures run[|steps|] == System(
      Caller(CheckingCancellation, false, false, true, false, None, false, []),
      Threads(Operating, Joining, 1, None, None, false),
      Sources(false, if c.cancellable then Registered else Unregistered,
              if c.timed then Armed else NoTimer, Unregistered), [])
  {
    run, steps := [Initial(c)], [];
    run := Extend(c, run, steps, BySetup(SpawnWorker(true)));
    steps := steps + [BySetup(SpawnWorker(true))];
    run := Extend(c, run, steps, BySetup(SpawnReaper(true)));
    steps := steps + [BySetup(SpawnReaper(true))];
    run := Extend(c, run, steps, BySetup(RegisterCancellation));
    steps := steps + [BySetup(RegisterCancellation)];
    run := Extend(c, run, steps, BySetup(Prepare(true)));
    steps := steps + [BySetup(Prepare(true))];
    run := Extend(c, run, steps, BySetup(OpenGate));
    steps := steps + [BySetup(OpenGate)];
    run := Extend(c, run, steps, BySetup(DropSender));
    steps := steps + [BySetup(DropSender)];
  }

  /** The operation has been stopped and is still running. */
  ghost predicate StoppedMidway(s: System) {
    && s.caller.stage.InGrace? && !s.caller.joined && s.threads.worker.Operating? && s.threads.stored.None?
    && s.queue == [] && s.threads.reaper.Joining?
  }

  lemma StoppedRun(c: Setup) returns (run: seq<System>, steps: seq<Step>)
    requires c.cancellable || c.timed
    ensures IsRun(c, run, steps) && StoppedMidway(run[|steps|])
  {
    run, steps := AdmittedRun(c);
    if c.cancellable {
      run := Extend(c, run, steps, BySource(RequestCancellation));
      steps := steps + [BySource(RequestCancellation)];
      run := Extend(c, run, steps, ByLoop(CheckCancellation));
      steps := steps + [ByLoop(CheckCancellation)];
    } else {
      run := Extend(c, run, steps, BySource(FireTimer(true)));
      steps := steps + [BySource(FireTimer(true))];
      run := Extend(c, run, steps, ByLoop(CheckCancellation));
      steps := steps + [ByLoop(CheckCancellation)];
      run := Extend(c, run, steps, ByLoop(PollTimer));
      steps := steps + [ByLoop(PollTimer)];
    }
  }

  /** Some interleaving fills the slot with this value after the attempt has returned without one. */
  ghost predicate WritesLate(c: Setup, run: seq<System>, steps: seq<Step>, i: nat, j: nat, value: int) {
    && IsRun(c, run, steps) && i <= j < |run|
    && run[i].caller.stage.Done? && run[i].threads.stored == None && run[j].threads.stored == Some(value)
  }

  /** With a stop that cleanup may give up on, an attempt that has returned may still fill the slot. */
  lemma LateWrite(c: Setup, value: int) returns (run: seq<System>, steps: seq<Step>, i: nat)
    requires !c.grace.UnboundedGrace? && (c.cancellable || c.timed)
    ensures i < |steps| && WritesLate(c, run, steps, i, i + 1, value)
    ensures run[i].caller.stage.outcome.StillRunning?
  {
    run, steps := StoppedRun(c);
    run := Extend(c, run, steps, ByCleanup(GraceExpire));
    steps := steps + [ByCleanup(GraceExpire)];
    i := |steps|;
    run := Extend(c, run, steps, ByThread(OperationEnds(Returns(value))));
    steps := steps + [ByThread(OperationEnds(Returns(value)))];
  }

  /** Without such a stop, every returned attempt has no worker left. */
  lemma NobodyGivenUp(c: Setup, run: seq<System>, steps: seq<Step>, i: nat)
    requires IsRun(c, run, steps) && i < |run| && run[i].caller.stage.Done?
    requires c.grace.UnboundedGrace? || (!c.cancellable && !c.timed)
    ensures NoWorkerLeft(run[i].caller.stage.outcome)
  {
    ReturnedOutcome(c, run, steps, i);
    RunInv(c, run, steps, i);
  }

  ghost predicate LateWritePossible(c: Setup) {
    exists run: seq<System>, steps: seq<Step>, i: nat, j: nat, value: int :: WritesLate(c, run, steps, i, j, value)
  }

  /**
   The slot may be written after the attempt has returned if and only if the attempt can be
   stopped, by cancellation or by a timer, and its cleanup has a bound.
   */
  lemma LateWriteExactly(c: Setup)
    ensures LateWritePossible(c) <==> !c.grace.UnboundedGrace? && (c.cancellable || c.timed)
  {
    if !c.grace.UnboundedGrace? && (c.cancellable || c.timed) {
      var run, steps, i := LateWrite(c, 0);
      assert WritesLate(c, run, steps, i, i + 1, 0);
    } else if LateWritePossible(c) {
      var run: seq<System>, steps: seq<Step>, i: nat, j: nat, value: int :| WritesLate(c, run, steps, i, j, value);
      NobodyGivenUp(c, run, steps, i);
      NothingLingers(c, run, steps, i, j);
      assert false;
    }
  }

  /** Cancellation was requested before the loop looked, and nothing else may decide the attempt. */
  predicate BoundToCancel(s: System) {
    && s.sources.cancelled
    && (|| BeforeGate(s.caller.stage) || s.caller.stage.DroppingSender? || s.caller.stage.CheckingCancellation?
        || s.caller.stage == InGrace(Cancellation) || Refused(s.caller.stage)
        || s.caller.stage == Done(Stopped(Cancellation)) || s.caller.stage == Done(StillRunning(Cancellation)))
  }

  lemma BoundStep(c: Setup, s: System, step: Step)
    requires Inv(c, s) && BoundToCancel(s) && Enabled(c, s, step)
    ensures BoundToCancel(Next(c, s, step))
  {
    InvStep(c, s, step);
  }

  lemma BoundInRun(c: Setup, run: seq<System>, steps: seq<Step>, k: nat)
    requires IsRun(c, run, steps) && k < |steps| && BoundToCancel(run[k])
    ensures BoundToCancel(run[k + 1])
  {
    RunInv(c, run, steps, k);
    BoundStep(c, run[k], steps[k]);
  }

  /** Cancellation seen at the top of the loop, or requested earlier, beats timeout and completion. */
  lemma CancellationWins(c: Setup, run: seq<System>, steps: seq<Step>, i: nat, j: nat)
    requires IsRun(c, run, steps) && i <= j < |run|
    requires run[i].sources.cancelled && (BeforeGate(run[i].caller.stage) || run[i].caller.stage.CheckingCancellation?)
    ensures run[j].caller.stage.Done? ==>
              var o := run[j].caller.stage.outcome;
              Refused(run[j].caller.stage) || o == Stopped(Cancellation) || o == StillRunning(Cancellation)
  {
    var p := (s: System) => BoundToCancel(s);
    forall k | i <= k < j && p(run[k]) ensures p(run[k + 1]) {
      BoundInRun(c, run, steps, k);
    }
    CarriedAlong(run, i, j, p);
    assert BoundToCancel(run[j]);
  }

  /** The trigger of a timer that fired, or failed. */
  function TimerTrigger(ok: bool): Trigger { if ok then Timeout else TimerFailure }

  predicate CancelledOr(t: Trigger, trigger: Trigger) { t.Cancellation? || t == trigger }

  /** The timer answered before the loop looked at it, and only cancellation may still decide first. */
  predicate BoundToTimer(s: System, ok: bool) {
    && s.sources.timer == Fired(ok)
    && match s.caller.stage
       case InGrace(t) => CancelledOr(t, TimerTrigger(ok))
       case Done(Stopped(t)) => CancelledOr(t, TimerTrigger(ok)) && !t.TimerFailure?
       case Done(StillRunning(t)) => CancelledOr(t, TimerTrigger(ok))
       case Done(TimerFailed) => !ok
       case Done(_) => Refused(s.caller.stage)
       case CheckingDone => false
       case Receiving => false
       case _ => true
  }

  lemma TimerBoundSetup(c: Setup, s: System, step: SetupStep, ok: bool)
    requires BoundToTimer(s, ok) && SetupEnabled(s, step) && !step.GateBroken?
    ensures BoundToTimer(SetupNext(c, s, step), ok)
  {
  }

  lemma TimerBoundLoop(c: Setup, s: System, step: WaitStep, ok: bool)
    requires BoundToTimer(s, ok) && LoopEnabled(s, step)
    ensures BoundToTimer(LoopNext(c, s, step), ok)
  {
  }

  lemma TimerBoundCleanup(c: Setup, s: System, step: GraceStep, ok: bool)
    requires BoundToTimer(s, ok) && CleanupEnabled(c, s, step) && !step.GraceClosed?
    ensures BoundToTimer(CleanupNext(c, s, step), ok)
  {
  }

  /** No step of an attempt finds its channel closed. */
  lemma NeverClosed(c: Setup, s: System, step: Step)
    requires Inv(c, s) && Enabled(c, s, step)
    ensures step != BySetup(GateBroken) && step != ByCleanup(GraceClosed) && step != ByLoop(ReceiveClosed)
  {
    InvStep(c, s, step);
  }

  lemma TimerBoundStep(c: Setup, s: System, step: Step, ok: bool)
    requires Inv(c, s) && BoundToTimer(s, ok) && Enabled(c, s, step)
    ensures BoundToTimer(Next(c, s, step), ok)
  {
    NeverClosed(c, s, step);
    match step
    case BySetup(m) => TimerBoundSetup(c, s, m, ok);
    case ByLoop(m) => TimerBoundLoop(c, s, m, ok);
    case ByCleanup(m) => TimerBoundCleanup(c, s, m, ok);
    case ByThread(_) =>
    case BySource(_) =>
  }

  lemma TimerBoundInRun(c: Setup, run: seq<System>, steps: seq<Step>, k: nat, ok: bool)
    requires IsRun(c, run, steps) && k < |steps| && BoundToTimer(run[k], ok)
    ensures BoundToTimer(run[k + 1], ok)
  {
    RunInv(c, run, steps, k);
    TimerBoundStep(c, run[k], steps[k], ok);
  }

  /**
   A timer that has answered before the loop looks at it beats a completion that is already
   queued: only cancellation or the timer itself can decide the attempt.
   */
  lemma TimerBeatsCompletion(c: Setup, run: seq<System>, steps: seq<Step>, i: nat, j: nat, ok: bool)
    requires IsRun(c, run, steps) && i <= j < |run| && run[i].sources.timer == Fired(ok)
    requires var stage := run[i].caller.stage;
             BeforeGate(stage) || stage.CheckingCancellation? || stage.PollingTimer?
    ensures run[j].caller.stage.Done? ==>
              var o := run[j].caller.stage.outcome;
              || Refused(run[j].caller.stage)
              || o == Stopped(Cancellation) || o == StillRunning(Cancellation)
              || (ok && (o == Stopped(Timeout) || o == StillRunning(Timeout)))
              || (!ok && (o == TimerFailed || o == StillRunning(TimerFailure)))
  {
    var p := (s: System) => BoundToTimer(s, ok);
    forall k | i <= k < j && p(run[k]) ensures p(run[k + 1]) {
      TimerBoundInRun(c, run, steps, k, ok);
    }
    CarriedAlong(run, i, j, p);
    assert BoundToTimer(run[j], ok);
  }

  /** With zero grace a worker is given up only while its exit has not been reported; proof that is queued counts. */
  lemma ZeroGraceSeesExit(c: Setup, run: seq<System>, steps: seq<Step>, i: nat)
    requires IsRun(c, run, steps) && i < |steps| && steps[i] == ByCleanup(GraceExpire) && c.grace.ZeroGrace?
    ensures run[i].threads.reaper.Joining? && run[i].queue == []
    ensures run[i + 1].caller.stage == Done(StillRunning(run[i].caller.stage.trigger))
  {
    RunInv(c, run, steps, i);
    ChannelStaysOpen(run[i]);
  }

  // --- Every interleaving is finite ----------------------------------------------------------------------

  function StageRank(m: Stage): nat {
    match m
    case SpawningWorker => 30
    case SpawningReaper => 29
    case Registering => 28
    case Preparing => 18
    case Releasing => 17
    case DroppingSender => 5
    case CheckingCancellation => 4
    case PollingTimer => 3
    case CheckingDone => 2
    case Receiving => 1
    case InGrace(_) => 1
    case Done(_) => 0
  }

  function WorkerRank(w: Worker): nat {
    match w
    case NotSpawned => 13
    case AtGate => 12
    case Operating => 11
    case Reporting(_) => 10
    case Leaving => 2
    case Exited(_) => 0
  }

  function ReaperRank(r: Reaper): nat { if r.NoReaper? then 10 else if r.Joining? then 8 else 0 }

  function WakerRank(w: Waker): nat {
    if w.Unregistered? then 10 else if w.Registered? then 9 else if w.Owed? then 8 else 0
  }

  function SourcesRank(o: Sources): nat {
    (if o.cancelled then 0 else 1) + WakerRank(o.cancelWaker) + (if o.timer.Armed? then 1 else 0)
        + WakerRank(o.timerWaker)
  }

  /** Work left: an event still to be received outweighs one turn of the loop. */
  function Rank(s: System): nat {
    StageRank(s.caller.stage) + WorkerRank(s.threads.worker) + ReaperRank(s.threads.reaper) + SourcesRank(s.sources)
        + 6 * |s.queue|
  }

  lemma RankBySetup(c: Setup, s: System, step: SetupStep)
    requires GateInv(s.caller, s.threads) && CancelInv(c, s) && SetupEnabled(s, step)
    ensures Rank(SetupNext(c, s, step)) < Rank(s)
  {
  }

  lemma RankByEvent(c: Setup, s: System)
    requires LoopEnabled(s, Receive)
    ensures Rank(LoopNext(c, s, Receive)) < Rank(s)
  {
    assert |s.queue[1..]| == |s.queue| - 1;
    assert Received(s.caller, s.queue[0]).stage == CheckingCancellation;
  }

  lemma RankByLook(c: Setup, s: System, step: WaitStep)
    requires TimerInv(c, s) && LoopEnabled(s, step) && !step.Receive?
    ensures Rank(LoopNext(c, s, step)) < Rank(s)
  {
  }

  lemma RankByLoop(c: Setup, s: System, step: WaitStep)
    requires TimerInv(c, s) && LoopEnabled(s, step)
    ensures Rank(LoopNext(c, s, step)) < Rank(s)
  {
    if step.Receive? {
      RankByEvent(c, s);
    } else {
      RankByLook(c, s, step);
    }
  }

  lemma RankByCleanup(c: Setup, s: System, step: GraceStep)
    requires CleanupEnabled(c, s, step)
    ensures Rank(CleanupNext(c, s, step)) < Rank(s)
  {
  }

  lemma RankByThread(s: System, step: ThreadStep)
    requires ThreadEnabled(s, step)
    ensures Rank(ThreadNext(s, step)) < Rank(s)
  {
  }

  lemma RankBySource(c: Setup, s: System, step: SourceStep)
    requires SourceEnabled(c, s, step)
    ensures Rank(SourceNext(c, s, step)) < Rank(s)
  {
  }

  lemma RankDecreases(c: Setup, s: System, step: Step)
    requires Inv(c, s) && Enabled(c, s, step)
    ensures Rank(Next(c, s, step)) < Rank(s)
  {
    match step
    case BySetup(m) => RankBySetup(c, s, m);
    case ByLoop(m) => RankByLoop(c, s, m);
    case ByCleanup(m) => RankByCleanup(c, s, m);
    case ByThread(m) => RankByThread(s, m);
    case BySource(m) => RankBySource(c, s, m);
  }

  lemma RankInRun(c: Setup, run: seq<System>, steps: seq<Step>, k: nat)
    requires IsRun(c, run, steps) && k < |steps|
    ensures Rank(run[k + 1]) < Rank(run[k])
  {
    RunInv(c, run, steps, k);
    RankDecreases(c, run[k], steps[k]);
  }

  lemma {:induction false} RankBounds(run: seq<System>, rank: System -> nat, i: nat)
    requires i < |run| && forall k :: 0 <= k < |run| - 1 ==> rank(run[k + 1]) < rank(run[k])
    ensures i + rank(run[i]) <= rank(run[0])
  {
    if i > 0 {
      RankBounds(run, rank, i - 1);
    }
  }

  const LONGEST_RUN := 75

  /** No scheduling of the threads and sources goes on forever. */
  lemma EveryRunIsFinite(c: Setup, run: seq<System>, steps: seq<Step>)
    requires IsRun(c, run, steps)
    ensures |steps| <= LONGEST_RUN
  {
    var rank := (s: System) => Rank(s);
    forall k | 0 <= k < |run| - 1 ensures rank(run[k + 1]) < rank(run[k]) {
      RankInRun(c, run, steps, k);
    }
    RankBounds(run, rank, |steps|);
  }

  // --- The calling thread is never stuck -------------------------------------------------------------------

  /** Steps nobody in the protocol owes: the operation ending, a cancellation request, the timer firing. */
  predicate External(step: Step) {
    || (step.ByThread? && step.thread.OperationEnds?)
    || (step.BySource? && (step.source.RequestCancellation? || step.source.FireTimer?))
  }

  /** The only waits that may last: a running operation that nobody stopped, or that was granted unbounded cleanup. */
  predicate MayWait(c: Setup, s: System) {
    && s.threads.worker.Operating? && s.queue == []
    && (|| (s.caller.stage.Receiving? && !s.sources.cancelled && !s.sources.timer.Fired?)
        || (s.caller.stage.InGrace? && c.grace.UnboundedGrace?))
  }

  /** With nothing to receive, the join is still to come: from the reaper, the worker, or the operation. */
  lemma JoinIsComing(c: Setup, s: System) returns (step: Step)
    requires Inv(c, s) && s.threads.calls == 1 && s.queue == [] && !s.caller.joined && !s.threads.worker.Operating?
    ensures Enabled(c, s, step) && !External(step)
  {
    ChannelStaysOpen(s);
    match s.threads.worker
    case Reporting(_) => step := ByThread(Report);
    case Leaving => step := ByThread(Exit(false));
    case Exited(_) => step := ByThread(Join);
  }

  lemma ReceivingMoves(c: Setup, s: System) returns (step: Step)
    requires Inv(c, s) && s.caller.stage.Receiving? && !MayWait(c, s)
    ensures Enabled(c, s, step) && !External(step)
  {
    if s.queue != [] {
      step := ByLoop(Receive);
    } else if !s.threads.worker.Operating? {
      step := JoinIsComing(c, s);
    } else {
      ChannelStaysOpen(s);
      step := BySource(if s.sources.cancelled then CallCancelWaker else CallTimerWaker);
    }
  }

  lemma CleanupMoves(c: Setup, s: System) returns (step: Step)
    requires Inv(c, s) && s.caller.stage.InGrace? && !MayWait(c, s)
    ensures Enabled(c, s, step) && !External(step)
  {
    if s.caller.joined {
      step := ByCleanup(GraceJoined);
    } else if s.queue != [] {
      step := ByCleanup(GraceReceive);
    } else if c.grace.UnboundedGrace? {
      step := JoinIsComing(c, s);
    } else {
      ChannelStaysOpen(s);
      step := ByCleanup(GraceExpire);
    }
  }

  /**
   Until the attempt is decided, some step is possible that does not depend on the operation
   ending, on a new cancellation or on the timer, except in a wait that is meant to last.
   */
  lemma NeverStuck(c: Setup, run: seq<System>, steps: seq<Step>, i: nat) returns (step: Step)
    requires IsRun(c, run, steps) && i < |run|
    ensures run[i].caller.stage.Done? || MayWait(c, run[i]) || (Enabled(c, run[i], step) && !External(step))
  {
    RunInv(c, run, steps, i);
    var s := run[i];
    step := BySetup(DropSender);
    if !s.caller.stage.Done? && !MayWait(c, s) {
      match s.caller.stage
      case SpawningWorker => step := BySetup(SpawnWorker(true));
      case SpawningReaper => step := BySetup(SpawnReaper(true));
      case Registering => step := BySetup(RegisterCancellation);
      case Preparing => step := BySetup(Prepare(true));
      case Releasing => step := BySetup(OpenGate);
      case DroppingSender => step := BySetup(DropSender);
      case CheckingCancellation => step := ByLoop(CheckCancellation);
      case PollingTimer => step := ByLoop(PollTimer);
      case CheckingDone => step := ByLoop(CheckDone);
      case Receiving => step := ReceivingMoves(c, s);
      case InGrace(_) => step := CleanupMoves(c, s);
    }
  }

  /** Nothing but the operation, a new cancellation or the timer could still move. */
  ghost predicate Quiescent(c: Setup, s: System) { forall step: Step :: Enabled(c, s, step) ==> External(step) }

  /**
   Liveness: every interleaving is finite, and one in which all that is owed has been done has
   either decided the attempt or waits as it may. So once cancellation was requested and cleanup
   has a bound, the attempt is decided whatever the operation does, and without either the attempt
   is decided as soon as its operation has ended.
   */
  lemma MaximalRunsDecide(c: Setup, run: seq<System>, steps: seq<Step>)
    requires IsRun(c, run, steps) && Quiescent(c, run[|steps|])
    ensures var s := run[|steps|];
            && |steps| <= LONGEST_RUN
            && (s.caller.stage.Done? || MayWait(c, s))
            && (s.sources.cancelled && !c.grace.UnboundedGrace? ==> s.caller.stage.Done?)
            && (s.sources.timer.Fired? && !c.grace.UnboundedGrace? ==> s.caller.stage.Done?)
            && (!s.threads.worker.Operating? ==> s.caller.stage.Done?)
  {
    EveryRunIsFinite(c, run, steps);
    var step := NeverStuck(c, run, steps, |steps|);
  }
}
