/**
 What observers, rules and operations see over a whole run.

 Each attempt that is retried contributes five events in a fixed order: it is announced,
 admitted, reported as failed, judged by the rules, and its retry is published. The trace of
 every run is a prefix of that repetition, and every context tells the truth about its place.
 */
module ObserverProtocol {
  import opened Options
  import opened Backoff
  import opened Accounting
  import opened Callbacks
  import opened FlowModel
  import opened FlowRuns

  const EVENTS_PER_ATTEMPT := 5

  /** The context belongs to the attempt with this ordinal, after `counted` admissions. */
  predicate Names(c: Context, counted: nat, ordinal: nat) { c.attempts == counted && c.currentAttempt == Some(ordinal) }

  /** Nothing of an earlier retry is left in the context. */
  predicate NoRetryPublished(c: Context) { c.nextDelay.None? && c.hint.None? }

  predicate Announces(e: Event, k: nat) {
    e.BeforeAttempt? && Names(e.context, k, k + 1) && NoRetryPublished(e.context) && e.context.hardTimeout.None?
  }

  predicate Admits(e: Event, k: nat) { e.Admitted? && e.ordinal == k + 1 }

  predicate ReportsFailure(e: Event, k: nat) {
    e.AttemptFailed? && Names(e.context, k + 1, k + 1) && NoRetryPublished(e.context)
  }

  /** The rules judge the failure that was reported. */
  predicate Judges(e: Event, reported: Event, k: nat) {
    && e.RulesConsulted? && Names(e.context, k + 1, k + 1) && NoRetryPublished(e.context)
    && reported.AttemptFailed? && e.failure == reported.failure
  }

  /** The published step is the one of this attempt, and the context shows its delay. */
  predicate Publishes(e: Event, k: nat) {
    e.RetryScheduled? && Names(e.context, k + 1, k + 1) && e.step.index == k + 1
        && e.context.nextDelay == Some(e.step.effective)
  }

  predicate InPlace(trace: seq<Event>, i: nat)
    requires i < |trace|
  {
    var e, k, place := trace[i], i / EVENTS_PER_ATTEMPT, i % EVENTS_PER_ATTEMPT;
    if place == 0 then Announces(e, k)
    else if place == 1 then Admits(e, k)
    else if place == 2 then ReportsFailure(e, k)
    else if place == 3 then Judges(e, trace[i - 1], k)
    else Publishes(e, k)
  }

  ghost predicate Cyclic(trace: seq<Event>) { forall i: nat :: i < |trace| ==> InPlace(trace, i) }

  lemma CyclicAppend(trace: seq<Event>, e: Event)
    requires Cyclic(trace) && InPlace(trace + [e], |trace|)
    ensures Cyclic(trace + [e])
  {
    forall i: nat | i < |trace + [e]| ensures InPlace(trace + [e], i) {
      if i < |trace| {
        assert InPlace(trace, i);
      }
    }
  }

  /** How many events have happened between two operations of the controller. */
  predicate Progress(phase: Phase, attempts: nat, events: nat) {
    match phase
    case Ready => attempts == 0 && events == 0
    case Admissible => events == EVENTS_PER_ATTEMPT * attempts + 1
    case Prepared(_) => events == EVENTS_PER_ATTEMPT * attempts + 1
    case Active => attempts > 0 && events == EVENTS_PER_ATTEMPT * (attempts - 1) + 2
    case Waiting(_) => events == EVENTS_PER_ATTEMPT * attempts
    case Succeeded(_) => attempts > 0 && events == EVENTS_PER_ATTEMPT * (attempts - 1) + 2
    case Stopped(_) => true
    case Panicked => true
  }

  ghost predicate TraceInv(s: State) {
    && Cyclic(s.flow.trace)
    && Progress(s.phase, s.flow.budget.attempts, |s.flow.trace|)
    && (s.phase.Admissible? || s.phase.Prepared? || s.phase.Active? ==> s.flow.nextDelay.None? && s.flow.hint.None?)
  }

  // --- What each operation appends ---------------------------------------------------------------------

  lemma NotifyAppends(cfg: Config, f: Flow, r: BeforeInputs)
    ensures NotifyBefore(cfg, f, r).flow.trace == f.trace + [BeforeAttempt(Invoked(r.observers), Snapshot(f))]
  {
  }

  lemma BeforeAppends(cfg: Config, f: Flow, r: BeforeInputs)
    requires f.budget.attempts < MAX_ATTEMPTS
    ensures var s := BeforeAttemptStep(cfg, f, r);
            || (s.Stop? && s.flow.trace == f.trace)
            || exists e: Event :: Announces(e, f.budget.attempts) && s.flow.trace == f.trace + [e]
  {
    if Coherent(f.budget, r.entry.now) {
      var g := At(f, r.entry.now);
      GatesSilent(cfg, g, r.entry.cancelled, BeforeAttempts, 0, ());
      if Gates(cfg, g, r.entry.cancelled, BeforeAttempts, 0, ()).Go? {
        NotifyAppends(cfg, EnterAttempt(g), r);
        assert Announces(BeforeAttempt(Invoked(r.observers), Snapshot(EnterAttempt(g))), f.budget.attempts);
      }
    }
  }

  lemma ObserveAppends(f: Flow, failure: Failure, r: FailureInputs)
    ensures var s := ObserveFailure(f, failure, r);
            s.flow.trace == f.trace + [AttemptFailed(Invoked(r.failedObservers), failure, Snapshot(f))]
  {
  }

  lemma DecideAppends(cfg: Config, f: Flow, failure: Failure, r: FailureInputs)
    ensures Decide(cfg, f, failure, r).flow.trace == Consulted(f, failure, r).trace
  {
    DecideSilent(cfg, f, failure, r);
  }

  lemma AnnounceAppends(f: Flow, step: BackoffStep, r: FailureInputs)
    ensures Announce(f, step, r).flow.trace ==
            f.trace + [RetryScheduled(Invoked(r.scheduledObservers), step, Snapshot(f))]
  {
  }

  lemma ScheduleAppends(cfg: Config, f: Flow, decision: Decision, r: FailureInputs)
    requires f.currentAttempt == Some(f.budget.attempts) && f.retryIndex + 1 == f.budget.attempts <= MAX_ATTEMPTS
    ensures var s := Schedule(cfg, f, decision, r);
            || (s.Stop? && s.flow.trace == f.trace)
            || exists e: Event :: Publishes(e, f.budget.attempts - 1) && s.flow.trace == f.trace + [e]
  {
    var step := Selected(cfg, f, decision, r.draws);
    var g := f.(retryIndex := NextIndex(f.retryIndex), hint := HintOf(decision), nextDelay := Some(step.effective));
    if Coherent(g.budget, r.afterBackoff) {
      var h := At(g, r.afterBackoff);
      GatesSilent(cfg, h, false, DuringBackoff, step.effective, ());
      if Gates(cfg, h, false, DuringBackoff, step.effective, ()).Go? {
        AnnounceAppends(h, step, r);
        assert Publishes(RetryScheduled(Invoked(r.scheduledObservers), step, Snapshot(h)), f.budget.attempts - 1);
      }
    }
  }

  lemma FixDeadlineAppends(cfg: Config, f: Flow, step: BackoffStep, r: FailureInputs)
    ensures FixDeadline(cfg, f, step, r).flow.trace == f.trace
  {
  }

  // --- Every command keeps the order --------------------------------------------------------------------

  lemma AnnouncedCyclic(trace: seq<Event>, attempts: nat, e: Event)
    requires Cyclic(trace) && |trace| == EVENTS_PER_ATTEMPT * attempts && Announces(e, attempts)
    ensures Cyclic(trace + [e])
  {
    CyclicAppend(trace, e);
  }

  lemma BeforeCyclic(cfg: Config, f: Flow, r: BeforeInputs)
    requires f.budget.attempts < MAX_ATTEMPTS && Cyclic(f.trace) && |f.trace| == EVENTS_PER_ATTEMPT * f.budget.attempts
    ensures var s := BeforeAttemptStep(cfg, f, r);
            Cyclic(s.flow.trace) && (s.Go? ==> |s.flow.trace| == |f.trace| + 1)
  {
    BeforeAppends(cfg, f, r);
    var g := BeforeAttemptStep(cfg, f, r).flow;
    if g.trace != f.trace {
      var e: Event :| Announces(e, f.budget.attempts) && g.trace == f.trace + [e];
      AnnouncedCyclic(f.trace, f.budget.attempts, e);
    }
  }

  lemma BeforeInOrder(cfg: Config, s: State, r: BeforeInputs)
    requires StateInv(cfg, s) && TraceInv(s) && Allowed(cfg, s, Before(r))
    ensures TraceInv(FlowRuns.Next(cfg, s, Before(r)))
  {
    BeforeKept(cfg, s.flow, r);
    BeforeCounts(cfg, s.flow, r);
    BeforeCyclic(cfg, s.flow, r);
  }

  lemma CommitInOrder(cfg: Config, s: State, b: Boundary)
    requires StateInv(cfg, s) && TraceInv(s) && Allowed(cfg, s, Commit(b))
    ensures TraceInv(FlowRuns.Next(cfg, s, Commit(b)))
  {
    var f, plan := s.flow, if s.phase.Prepared? then s.phase.timeout else None;
    CommitShape(cfg, f, plan, b);
    var t := CommitStep(cfg, f, plan, b);
    if t.Go? {
      CyclicAppend(f.trace, t.flow.trace[|f.trace|]);
    }
  }

  /** The trace after a failure was recorded, from the point where its duration has been accounted for. */
  lemma FailureInOrder(cfg: Config, f: Flow, failure: Failure, r: FailureInputs)
    requires Cyclic(f.trace) && f.budget.attempts > 0 && |f.trace| == EVENTS_PER_ATTEMPT * (f.budget.attempts - 1) + 2
    requires f.currentAttempt == Some(f.budget.attempts) && f.nextDelay.None? && f.hint.None?
    requires JustFailed(cfg, f, failure)
    ensures var s := AfterCompletion(cfg, f, failure, r);
            Cyclic(s.flow.trace) && (s.Go? ==> |s.flow.trace| == EVENTS_PER_ATTEMPT * f.budget.attempts)
  {
    var observed := ObserveFailure(f, failure, r);
    ObserveKept(cfg, f, failure, r);
    ObserveAppends(f, failure, r);
    var reported := AttemptFailed(Invoked(r.failedObservers), failure, Snapshot(f));
    CyclicAppend(f.trace, reported);
    if observed.Go? {
      RulesInOrder(cfg, observed.flow, failure, r);
    }
  }

  lemma RulesInOrder(cfg: Config, f: Flow, failure: Failure, r: FailureInputs)
    requires Cyclic(f.trace) && f.budget.attempts > 0 && |f.trace| == EVENTS_PER_ATTEMPT * (f.budget.attempts - 1) + 3
    requires f.trace[|f.trace| - 1].AttemptFailed? && f.trace[|f.trace| - 1].failure == failure
    requires f.currentAttempt == Some(f.budget.attempts) && f.nextDelay.None? && f.hint.None?
    requires JustFailed(cfg, f, failure)
    ensures var d := Decide(cfg, f, failure, r);
            && Cyclic(d.flow.trace)
            && (d.Go? ==> var s := Schedule(cfg, d.flow, d.value, r);
                          && Cyclic(s.flow.trace)
                          && (s.Go? ==> var p := FixDeadline(cfg, s.flow, s.value, r);
                                        Cyclic(p.flow.trace)
                                        && |p.flow.trace| == EVENTS_PER_ATTEMPT * f.budget.attempts))
  {
    var d := Decide(cfg, f, failure, r);
    DecideKept(cfg, f, failure, r);
    DecideAppends(cfg, f, failure, r);
    CyclicAppend(f.trace, RulesConsulted(Judge(r.rules, 0).invoked, failure, Snapshot(f)));
    if d.Go? {
      PublicationInOrder(cfg, d.flow, d.value, r);
    }
  }

  lemma PublicationInOrder(cfg: Config, f: Flow, decision: Decision, r: FailureInputs)
    requires Cyclic(f.trace) && 0 < f.budget.attempts <= MAX_ATTEMPTS
             && |f.trace| == EVENTS_PER_ATTEMPT * (f.budget.attempts - 1) + 4
    requires f.currentAttempt == Some(f.budget.attempts) && f.retryIndex + 1 == f.budget.attempts
    ensures var s := Schedule(cfg, f, decision, r);
            && Cyclic(s.flow.trace)
            && (s.Go? ==> var p := FixDeadline(cfg, s.flow, s.value, r);
                          Cyclic(p.flow.trace) && |p.flow.trace| == EVENTS_PER_ATTEMPT * f.budget.attempts)
  {
    var s := Schedule(cfg, f, decision, r);
    ScheduleAppends(cfg, f, decision, r);
    if s.flow.trace != f.trace {
      var e: Event :| Publishes(e, f.budget.attempts - 1) && s.flow.trace == f.trace + [e];
      CyclicAppend(f.trace, e);
    }
    if s.Go? {
      FixDeadlineAppends(cfg, s.flow, s.value, r);
    }
  }

  lemma FailInOrder(cfg: Config, s: State, failure: Failure, r: FailureInputs)
    requires StateInv(cfg, s) && TraceInv(s) && Allowed(cfg, s, Fail(failure, r))
    ensures TraceInv(FlowRuns.Next(cfg, s, Fail(failure, r)))
  {
    var f := s.flow;
    RecordFailureKept(cfg, f, failure, r);
    if Coherent(f.budget, r.completion) {
      Finishing(cfg, f, r.completion);
      FailureInOrder(cfg, Failed(f, failure, r.completion), failure, r);
    }
  }

  lemma OthersInOrder(cfg: Config, s: State, c: Command)
    requires StateInv(cfg, s) && TraceInv(s) && Allowed(cfg, s, c) && !c.Before? && !c.Commit? && !c.Fail?
    ensures TraceInv(FlowRuns.Next(cfg, s, c))
  {
    var n := FlowRuns.Next(cfg, s, c);
    assert n.flow.trace == s.flow.trace;
    OnlyCommitAdmits(cfg, s, c);
  }

  lemma NextInOrder(cfg: Config, s: State, c: Command)
    requires StateInv(cfg, s) && TraceInv(s) && Allowed(cfg, s, c)
    ensures TraceInv(FlowRuns.Next(cfg, s, c))
  {
    match c
    case Before(r) => BeforeInOrder(cfg, s, r);
    case Commit(b) => CommitInOrder(cfg, s, b);
    case Fail(failure, r) => FailInOrder(cfg, s, failure, r);
    case _ => OthersInOrder(cfg, s, c);
  }

  lemma {:induction false} RunInOrder(cfg: Config, run: seq<State>, commands: seq<Command>, n: nat)
    requires FlowRuns.IsRun(cfg, run, commands) && n < |run|
    ensures TraceInv(run[n])
  {
    if n > 0 {
      RunInOrder(cfg, run, commands, n - 1);
      FlowRuns.RunInv(cfg, run, commands, n - 1);
      NextInOrder(cfg, run[n - 1], commands[n - 1]);
    }
  }

  /**
   In every run the i-th event is the one that the order of an attempt demands at place i, with
   the ordinal, attempt count, delay and failure that belong there.
   */
  lemma EventsInOrder(cfg: Config, run: seq<State>, commands: seq<Command>, n: nat, i: nat)
    requires FlowRuns.IsRun(cfg, run, commands) && n < |run| && i < |run[n].flow.trace|
    ensures InPlace(run[n].flow.trace, i)
  {
    RunInOrder(cfg, run, commands, n);
  }

  /** A run that succeeds ends with the admission of its last attempt: no failure, judgement or retry follows it. */
  lemma SuccessEndsWithAdmission(cfg: Config, run: seq<State>, commands: seq<Command>, n: nat)
    requires FlowRuns.IsRun(cfg, run, commands) && n < |run| && run[n].phase.Succeeded?
    ensures var f := run[n].flow;
            f.trace != [] && f.trace[|f.trace| - 1].Admitted? && f.trace[|f.trace| - 1].ordinal == f.budget.attempts
  {
    RunInOrder(cfg, run, commands, n);
    var trace := run[n].flow.trace;
    assert InPlace(trace, |trace| - 1);
  }
}
