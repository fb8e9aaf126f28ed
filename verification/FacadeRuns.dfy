/**
 Every facade is a driver: what a loop, a timed loop or a session does is a run of the flow
 controller, so the theorems about all such runs hold of each facade's ending.
 */
module FacadeRuns {
  import opened Options
  import opened Time
  import opened Accounting
  import opened FlowModel
  import opened FlowDeadlines
  import opened FlowRuns
  import opened Driving
  import opened RetryLoop
  import opened TimedLoop
  import opened RetrySession
  import opened SessionRefinesLoop

  // --- Reachability by commands ---------------------------------------------------------------------

  /** One command, if it is allowed. */
  ghost function Moved(cfg: Config): (State, Command) -> Option<State> {
    (s: State, c: Command) => if Allowed(cfg, s, c) then Some(FlowRuns.Next(cfg, s, c)) else None
  }

  /** The moves lead from one state to the other. */
  ghost predicate Path<S(!new), C(!new)>(move: (S, C) -> Option<S>, s: S, commands: seq<C>, t: S)
    decreases |commands|
  {
    if commands == [] then s == t
    else move(s, commands[0]).Some? && Path(move, move(s, commands[0]).value, commands[1..], t)
  }

  lemma {:induction false} PathOn<S(!new), C(!new)>(move: (S, C) -> Option<S>, s: S, a: seq<C>, t: S, b: seq<C>, u: S)
    requires Path(move, s, a, t) && Path(move, t, b, u)
    ensures Path(move, s, a + b, u)
    decreases |a|
  {
    if a == [] {
      assert a + b == b;
    } else {
      PathOn(move, move(s, a[0]).value, a[1..], t, b, u);
      assert (a + b)[1..] == a[1..] + b;
    }
  }

  /** The commands lead from one state to the other, each allowed where it is issued. */
  ghost predicate Leads(cfg: Config, s: State, commands: seq<Command>, t: State) { Path(Moved(cfg), s, commands, t) }

  ghost predicate Reaches(cfg: Config, s: State, t: State) { exists commands :: Leads(cfg, s, commands, t) }

  lemma StepReaches(cfg: Config, s: State, c: Command)
    requires Allowed(cfg, s, c)
    ensures Reaches(cfg, s, FlowRuns.Next(cfg, s, c))
  {
    assert Path(Moved(cfg), FlowRuns.Next(cfg, s, c), [c][1..], FlowRuns.Next(cfg, s, c));
    assert Leads(cfg, s, [c], FlowRuns.Next(cfg, s, c));
  }

  lemma StaysReached(cfg: Config, s: State)
    ensures Reaches(cfg, s, s)
  {
    assert Leads(cfg, s, [], s);
  }

  lemma ReachesOn(cfg: Config, s: State, t: State, u: State)
    requires Reaches(cfg, s, t) && Reaches(cfg, t, u)
    ensures Reaches(cfg, s, u)
  {
    var a :| Leads(cfg, s, a, t);
    var b :| Leads(cfg, t, b, u);
    PathOn(Moved(cfg), s, a, t, b, u);
    assert Leads(cfg, s, a + b, u);
  }

  lemma {:induction false} LeadsKeepsInv(cfg: Config, s: State, commands: seq<Command>, t: State)
    requires StateInv(cfg, s) && Leads(cfg, s, commands, t)
    ensures StateInv(cfg, t)
    decreases |commands|
  {
    if commands != [] {
      NextInv(cfg, s, commands[0]);
      LeadsKeepsInv(cfg, FlowRuns.Next(cfg, s, commands[0]), commands[1..], t);
    }
  }

  lemma ReachesKeepsInv(cfg: Config, s: State, t: State)
    requires StateInv(cfg, s) && Reaches(cfg, s, t)
    ensures StateInv(cfg, t)
  {
    var commands :| Leads(cfg, s, commands, t);
    LeadsKeepsInv(cfg, s, commands, t);
  }

  function NewState(cfg: Config, startedAt: Instant): State { State(Start(cfg, startedAt), Ready) }

  lemma NewStateInv(cfg: Config, startedAt: Instant)
    requires ValidLimits(cfg.limits)
    ensures StateInv(cfg, NewState(cfg, startedAt))
  {
    FreshInv(cfg.limits, startedAt);
  }

  /** The phase in which a terminal result leaves the controller. */
  predicate Matches(phase: Phase, t: Terminal) {
    match t
    case Success(_, c) => phase == Succeeded(c)
    case Failure(e) => phase == Stopped(e)
    case Abandoned(_) => phase.Waiting?
  }

  /** A run of the controller ends with this flow, in the phase of this result. */
  ghost predicate Ends(cfg: Config, s: State, f: Flow, t: Terminal) {
    exists phase :: Matches(phase, t) && Reaches(cfg, s, State(f, phase))
  }

  lemma EndsOn(cfg: Config, s: State, m: State, f: Flow, t: Terminal)
    requires Reaches(cfg, s, m) && Ends(cfg, m, f, t)
    ensures Ends(cfg, s, f, t)
  {
    var phase :| Matches(phase, t) && Reaches(cfg, m, State(f, phase));
    ReachesOn(cfg, s, m, State(f, phase));
  }

  lemma FailureEnds(cfg: Config, s: State, f: Flow, e: RetryError)
    requires Reaches(cfg, s, State(f, Stopped(e)))
    ensures Ends(cfg, s, f, Failure(e))
  {
    assert Matches(Stopped(e), Failure(e));
  }

  // --- From iterations to runs ------------------------------------------------------------------------

  /** Between iterations: ready for the first attempt, or waiting for the next. */
  ghost predicate Resting(cfg: Config, s: State) { StateInv(cfg, s) && (s.phase.Ready? || s.phase.Waiting?) }

  /** The iteration is a piece of a run. */
  ghost predicate Piece(i: Iteration, s: State, reach: (State, State) -> bool, ends: (State, Flow, Terminal) -> bool) {
    match i
    case Last(f, t, _) => ends(s, f, t)
    case Continue(f, plan) => reach(s, State(f, Waiting(plan)))
  }

  lemma {:induction false} DriveEnds<R(!new)>(
      step: (Flow, R) -> Iteration, s: State, script: nat -> R, rows: nat, calls: nat,
      ok: State -> bool, reach: (State, State) -> bool, ends: (State, Flow, Terminal) -> bool)
    requires Counting(step) && ok(s)
    requires forall s: State, row: R :: ok(s) ==> Piece(step(s.flow, row), s, reach, ends)
    requires forall s: State, f: Flow, p: Plan :: ok(s) && reach(s, State(f, Waiting(p))) ==> ok(State(f, Waiting(p)))
    requires forall s: State, m: State, f: Flow, t: Terminal :: reach(s, m) && ends(m, f, t) ==> ends(s, f, t)
    ensures var e := Drive(step, s.flow, script, rows, calls); ends(s, e.flow, e.terminal)
    decreases if s.flow.budget.attempts < s.flow.budget.limits.maxAttempts
              then s.flow.budget.limits.maxAttempts - s.flow.budget.attempts else 0
  {
    var i := step(s.flow, script(rows));
    assert Piece(i, s, reach, ends);
    LaterRowsCounted(step, s.flow, script(rows));
    if i.Continue? {
      DriveEnds(step, State(i.flow, Waiting(i.plan)), script, rows + 1, calls + 1, ok, reach, ends);
    }
  }

  /** Iterations that are pieces of runs make up a run. */
  lemma DriveIsRun<R(!new)>(cfg: Config, step: (Flow, R) -> Iteration, s: State, script: nat -> R)
    requires Counting(step) && Resting(cfg, s)
    requires forall s: State, row: R :: Resting(cfg, s) ==>
               Piece(step(s.flow, row), s, (a: State, b: State) => Reaches(cfg, a, b),
                     (a: State, f: Flow, t: Terminal) => Ends(cfg, a, f, t))
    ensures var e := Drive(step, s.flow, script, 0, 0); Ends(cfg, s, e.flow, e.terminal)
  {
    var ok := (a: State) => Resting(cfg, a);
    var reach := (a: State, b: State) => Reaches(cfg, a, b);
    var ends := (a: State, f: Flow, t: Terminal) => Ends(cfg, a, f, t);
    forall a: State, f: Flow, p: Plan | ok(a) && reach(a, State(f, Waiting(p))) ensures ok(State(f, Waiting(p))) {
      ReachesKeepsInv(cfg, a, State(f, Waiting(p)));
    }
    forall a: State, m: State, f: Flow, t: Terminal | reach(a, m) && ends(m, f, t) ensures ends(a, f, t) {
      EndsOn(cfg, a, m, f, t);
    }
    DriveEnds(step, s, script, 0, 0, ok, reach, ends);
  }

  // --- Pieces all facades share ---------------------------------------------------------------------------

  lemma AnnouncementReaches(cfg: Config, s: State, before: BeforeInputs)
    requires Resting(cfg, s)
    ensures Reaches(cfg, s, Enter(BeforeAttemptStep(cfg, s.flow, before), _ => Admissible))
  {
    StepReaches(cfg, s, Before(before));
  }

  lemma UntimedAdmissionReaches(cfg: Config, s: State, before: BeforeInputs, commit: Boundary)
    requires Resting(cfg, s) && !Timed(cfg)
    ensures Reaches(cfg, s, Enter(AdmitStep(cfg, s.flow, before, commit), _ => Active))
  {
    AnnouncementReaches(cfg, s, before);
    var announced := Enter(BeforeAttemptStep(cfg, s.flow, before), _ => Admissible);
    if announced.phase.Admissible? {
      StepReaches(cfg, announced, Commit(commit));
      ReachesOn(cfg, s, announced, FlowRuns.Next(cfg, announced, Commit(commit)));
    }
  }

  /** What follows a recorded failure, as a piece of a run. */
  lemma FailureReaches(cfg: Config, s: State, failure: Failure, r: FailureInputs)
    requires StateInv(cfg, s) && s.phase.Active?
    ensures Reaches(cfg, s, Enter(RecordFailureStep(cfg, s.flow, failure, r), p => Waiting(p)))
  {
    StepReaches(cfg, s, Fail(failure, r));
  }

  lemma SuccessReaches(cfg: Config, s: State, now: Instant)
    requires StateInv(cfg, s) && s.phase.Active?
    ensures Reaches(cfg, s, Enter(FinishSuccessStep(s.flow, now), c => Succeeded(c)))
  {
    StepReaches(cfg, s, Succeed(now));
  }

  /** A settled attempt has ended the run, or planned a retry. */
  ghost predicate SettledPiece(cfg: Config, s: State, settled: Followup) {
    match settled
    case Done(f, t) => Ends(cfg, s, f, t)
    case Again(f, plan) => Reaches(cfg, s, State(f, Waiting(plan)))
  }

  lemma SettleReaches(cfg: Config, s: State, operation: Result<int, int>, finished: Instant, r: FailureInputs)
    requires StateInv(cfg, s) && s.phase.Active?
    ensures SettledPiece(cfg, s, Settle(cfg, s.flow, operation, finished, r))
  {
    match operation
    case Ok(value) =>
      SuccessReaches(cfg, s, finished);
      var done := FinishSuccessStep(s.flow, finished);
      if done.Go? {
        assert Matches(Succeeded(done.value), Success(value, done.value));
      } else {
        FailureEnds(cfg, s, done.flow, done.error);
      }
    case Err(code) =>
      FailureReaches(cfg, s, AppError(code), r);
      var recorded := RecordFailureStep(cfg, s.flow, AppError(code), r);
      if recorded.Stop? {
        FailureEnds(cfg, s, recorded.flow, recorded.error);
      }
  }

  lemma WaitEnds(cfg: Config, s: State, wait: Wait)
    requires s.phase.Waiting? && !wait.Elapsed?
    ensures Ends(cfg, s, EndWait(s.flow, wait).flow, Failure(EndWait(s.flow, wait).error))
  {
    var c := match wait
      case WaitCancelled(now) => CancelBackoff(now)
      case WaitTimerFailed(now) => BreakDown(TimerFailed, false, now);
    StepReaches(cfg, s, c);
    var ended := EndWait(s.flow, wait);
    assert FlowRuns.Next(cfg, s, c) == State(ended.flow, Stopped(ended.error));
    FailureEnds(cfg, s, ended.flow, ended.error);
  }

  ghost predicate IsPiece(cfg: Config, i: Iteration, s: State) {
    Piece(i, s, (a: State, b: State) => Reaches(cfg, a, b), (a: State, f: Flow, t: Terminal) => Ends(cfg, a, f, t))
  }

  /** After a planned retry the wait either ends the run or leads to the next iteration. */
  lemma AfterWaitReaches(cfg: Config, s: State, f: Flow, plan: Plan, wait: Wait)
    requires Reaches(cfg, s, State(f, Waiting(plan)))
    ensures IsPiece(cfg, AfterWait(f, plan, wait), s)
  {
    if !wait.Elapsed? {
      WaitEnds(cfg, State(f, Waiting(plan)), wait);
      EndsOn(cfg, s, State(f, Waiting(plan)), EndWait(f, wait).flow, Failure(EndWait(f, wait).error));
    }
  }

  /** From an admitted attempt on, the pieces of a facade compose. */
  lemma SettledOn(cfg: Config, s: State, active: State, settled: Followup)
    requires Reaches(cfg, s, active) && SettledPiece(cfg, active, settled)
    ensures SettledPiece(cfg, s, settled)
  {
    match settled
    case Done(f, t) => EndsOn(cfg, s, active, f, t);
    case Again(f, plan) => ReachesOn(cfg, s, active, State(f, Waiting(plan)));
  }

  // --- The same-thread loop ---------------------------------------------------------------------------------

  lemma IterationIsPiece(cfg: Config, s: State, row: Row)
    requires Resting(cfg, s) && !Timed(cfg)
    ensures IsPiece(cfg, Iterate(cfg, s.flow, row), s)
  {
    var admitted := AdmitStep(cfg, s.flow, row.before, row.commit);
    UntimedAdmissionReaches(cfg, s, row.before, row.commit);
    if admitted.Stop? {
      FailureEnds(cfg, s, admitted.flow, admitted.error);
      assert Iterate(cfg, s.flow, row) == Last(admitted.flow, Failure(admitted.error), false);
      return;
    }
    var active := State(admitted.flow, Active);
    ReachesKeepsInv(cfg, s, active);
    var settled := Settle(cfg, admitted.flow, row.operation, row.finished, row.failure);
    SettleReaches(cfg, active, row.operation, row.finished, row.failure);
    SettledOn(cfg, s, active, settled);
    if settled.Again? {
      AfterWaitReaches(cfg, s, settled.flow, settled.plan, WaitOf(row.wait, settled.plan));
      assert Iterate(cfg, s.flow, row) == AfterWait(settled.flow, settled.plan, WaitOf(row.wait, settled.plan));
    } else {
      assert Iterate(cfg, s.flow, row) == Last(settled.flow, settled.terminal, true);
    }
  }

  /** The same-thread facade is constructed without hard timeouts, and then its loop is a run. */
  lemma LoopIsRun(cfg: Config, startedAt: Instant, script: nat -> Row)
    requires ValidLimits(cfg.limits) && !Timed(cfg)
    ensures var e := LoopFrom(cfg, Start(cfg, startedAt), script, 0, 0);
            Ends(cfg, NewState(cfg, startedAt), e.flow, e.terminal)
  {
    IteratorCounting(cfg);
    NewStateInv(cfg, startedAt);
    forall s: State, row: Row | Resting(cfg, s) ensures IsPiece(cfg, Iterator(cfg)(s.flow, row), s) {
      IterationIsPiece(cfg, s, row);
    }
    DriveIsRun(cfg, Iterator(cfg), NewState(cfg, startedAt), script);
  }

  // --- The timed loop ---------------------------------------------------------------------------------------

  lemma ReleaseReaches(cfg: Config, s: State, row: TimedRow)
    requires StateInv(cfg, s) && s.phase.Admissible?
    ensures Reaches(cfg, s, Enter(Release(cfg, s.flow, s.flow.budget.sampledAt, row), _ => Active))
  {
    var prepared := PrepareAttemptStep(cfg, s.flow, s.flow.budget.sampledAt);
    StepReaches(cfg, s, Prepare);
    if prepared.Go? {
      var ready := State(prepared.flow, Prepared(prepared.value));
      assert FlowRuns.Next(cfg, s, Prepare) == ready;
      PreparedReaches(cfg, ready, row);
      ReachesOn(cfg, s, ready, Enter(Release(cfg, s.flow, s.flow.budget.sampledAt, row), _ => Active));
    }
  }

  /** Set-up and commit of a prepared attempt. */
  lemma PreparedReaches(cfg: Config, s: State, row: TimedRow)
    requires s.phase.Prepared?
    ensures var launched := SetUp(s.flow, s.phase.timeout, row.registration, row.spawn);
            if launched.Stop? then Reaches(cfg, s, State(launched.flow, Stopped(launched.error)))
            else Reaches(cfg, s, Enter(CommitStep(cfg, launched.flow, s.phase.timeout, row.commit), _ => Active))
  {
    if s.phase.timeout.Some? && row.registration.Some? {
      StepReaches(cfg, s, BreakDown(TimerFailed, false, row.registration.value));
    } else if row.spawn.Some? {
      StepReaches(cfg, s, BreakDown(WorkerSpawnFailed, false, row.spawn.value));
    } else {
      StepReaches(cfg, s, Commit(row.commit));
    }
  }

  lemma TimedAdmissionReaches(cfg: Config, s: State, row: TimedRow)
    requires Resting(cfg, s)
    ensures Reaches(cfg, s, Enter(TimedAdmit(cfg, s.flow, row), _ => Active))
  {
    AnnouncementReaches(cfg, s, row.before);
    var announced := BeforeAttemptStep(cfg, s.flow, row.before);
    if announced.Go? {
      BeforeKept(cfg, s.flow, row.before);
      var admissible := State(announced.flow, Admissible);
      ReleaseReaches(cfg, admissible, row);
      ReachesOn(cfg, s, admissible, Enter(TimedAdmit(cfg, s.flow, row), _ => Active));
    }
  }

  lemma InterruptionEnds(cfg: Config, s: State, end: AttemptEnd, timeout: Option<Timeout>, now: Instant)
    requires StateInv(cfg, s) && s.phase.Active? && !end.Returned? && FailureOf(end, timeout).None?
    ensures var i := Interrupted(s.flow, end, timeout, now); i.Stop? && Ends(cfg, s, i.flow, Failure(i.error))
  {
    var c := match end
      case StopRequested => CancelAttempt(now)
      case TimerBroken(keeps) => BreakDown(TimerFailed, keeps, now)
      case ChannelLost => BreakDown(WorkerChannelClosed, true, now)
      case LeftRunning(cause) => BreakDown(WorkerStillRunning(TriggerOf(cause, ScopeOf(timeout))), true, now);
    StepReaches(cfg, s, c);
    var i := Interrupted(s.flow, end, timeout, now);
    assert FlowRuns.Next(cfg, s, c) == State(i.flow, Stopped(i.error));
    FailureEnds(cfg, s, i.flow, i.error);
  }

  lemma TimedSettleReaches(cfg: Config, s: State, timeout: Option<Timeout>, row: TimedRow)
    requires StateInv(cfg, s) && s.phase.Active?
    ensures SettledPiece(cfg, s, TimedSettle(cfg, s.flow, timeout, row))
  {
    if row.end.Returned? {
      SettleReaches(cfg, s, Ok(row.end.value), row.finished, row.failure);
    } else if FailureOf(row.end, timeout).Some? {
      var failure := FailureOf(row.end, timeout).value;
      FailureReaches(cfg, s, failure, row.failure);
      var recorded := RecordFailureStep(cfg, s.flow, failure, row.failure);
      if recorded.Stop? {
        FailureEnds(cfg, s, recorded.flow, recorded.error);
      }
    } else {
      InterruptionEnds(cfg, s, row.end, timeout, row.finished);
    }
  }

  lemma TimedIterationIsPiece(cfg: Config, s: State, row: TimedRow)
    requires Resting(cfg, s)
    ensures IsPiece(cfg, TimedIterate(cfg, s.flow, row), s)
  {
    var admitted := TimedAdmit(cfg, s.flow, row);
    TimedAdmissionReaches(cfg, s, row);
    if admitted.Stop? {
      FailureEnds(cfg, s, admitted.flow, admitted.error);
      assert TimedIterate(cfg, s.flow, row) == Last(admitted.flow, Failure(admitted.error), false);
      return;
    }
    var active := State(admitted.flow, Active);
    ReachesKeepsInv(cfg, s, active);
    var settled := TimedSettle(cfg, admitted.flow, admitted.value, row);
    TimedSettleReaches(cfg, active, admitted.value, row);
    SettledOn(cfg, s, active, settled);
    if settled.Again? {
      AfterWaitReaches(cfg, s, settled.flow, settled.plan, WaitOf(row.wait, settled.plan));
      assert TimedIterate(cfg, s.flow, row) == AfterWait(settled.flow, settled.plan, WaitOf(row.wait, settled.plan));
    } else {
      assert TimedIterate(cfg, s.flow, row) == Last(settled.flow, settled.terminal, true);
    }
  }

  /** The loop of the asynchronous and the worker facade is a run. */
  lemma TimedLoopIsRun(cfg: Config, startedAt: Instant, script: nat -> TimedRow)
    requires ValidLimits(cfg.limits)
    ensures var e := TimedFrom(cfg, Start(cfg, startedAt), script, 0, 0);
            Ends(cfg, NewState(cfg, startedAt), e.flow, e.terminal)
  {
    TimedCounting(cfg);
    NewStateInv(cfg, startedAt);
    forall s: State, row: TimedRow | Resting(cfg, s) ensures IsPiece(cfg, TimedIterator(cfg)(s.flow, row), s) {
      TimedIterationIsPiece(cfg, s, row);
    }
    DriveIsRun(cfg, TimedIterator(cfg), NewState(cfg, startedAt), script);
  }

  // --- The session --------------------------------------------------------------------------------------------

  /** Where the controller is between two calls of a session; `answer` is the terminal result the last call gave. */
  ghost predicate Stands(s: Session, at: State) {
    && at.flow == s.flow
    && match s.phase
       case SessionReady => at.phase == Ready
       case SessionActive => at.phase == Active
       case SessionWaiting(due) => at.phase.Waiting? && at.phase.plan == Plan(due, s.flow.nextDelay == Some(0))
       case SessionFinished => s.ended.Some? && Matches(at.phase, s.ended.value)
  }

  lemma GateReaches(cfg: Config, s: Session, at: State, poll: Boundary)
    requires SessionInv(cfg, s) && MayBegin(s) && Stands(s, at)
    ensures var g := Gate(s, poll);
            if g.Stop? then Reaches(cfg, at, State(g.flow, Stopped(g.error)))
            else Reaches(cfg, at, State(g.flow, at.phase)) && Stands(s.(flow := g.flow), State(g.flow, at.phase))
  {
    if s.phase.SessionWaiting? {
      StepReaches(cfg, at, Poll(poll));
      assert Gate(s, poll) == CheckBackoffStep(s.flow, poll, at.phase.plan.deadline);
    } else {
      StaysReached(cfg, at);
    }
  }

  /** Whoever calls it and whenever it is allowed: beginning an attempt is a piece of a run. */
  lemma BeginIsPiece(cfg: Config, s: Session, at: State, poll: Boundary, before: BeforeInputs, commit: Boundary)
      returns (next: State)
    requires SessionInv(cfg, s) && MayBegin(s) && Stands(s, at) && StateInv(cfg, at) && !Timed(cfg)
    ensures Reaches(cfg, at, next) && Stands(Begin(cfg, s, poll, before, commit).0, next)
  {
    GateReaches(cfg, s, at, poll);
    var g := Gate(s, poll);
    if g.Stop? {
      next := State(g.flow, Stopped(g.error));
      return;
    }
    next := State(g.flow, at.phase);
    if g.value {
      ReachesKeepsInv(cfg, at, next);
      UntimedAdmissionReaches(cfg, next, before, commit);
      var admitted := Enter(AdmitStep(cfg, g.flow, before, commit), _ => Active);
      ReachesOn(cfg, at, next, admitted);
      next := admitted;
    }
  }

  lemma PlannedDelay(cfg: Config, s: State, failure: Failure, r: FailureInputs)
    requires StateInv(cfg, s) && s.phase.Active?
    ensures var f := RecordFailureStep(cfg, s.flow, failure, r);
            f.Go? ==> f.value == Plan(f.value.deadline, f.flow.nextDelay == Some(0))
  {
    RecordFailureKept(cfg, s.flow, failure, r);
  }

  /** Recording a result is a piece of a run. */
  lemma RecordIsPiece(cfg: Config, s: Session, at: State, operation: Result<int, int>, finished: Instant,
      r: FailureInputs)
      returns (next: State)
    requires SessionInv(cfg, s) && s.phase.SessionActive? && Stands(s, at) && StateInv(cfg, at)
    ensures Reaches(cfg, at, next) && Stands(Record(cfg, s, operation, finished, r).0, next)
  {
    if operation.Ok? {
      SuccessReaches(cfg, at, finished);
      next := Enter(FinishSuccessStep(s.flow, finished), c => Succeeded(c));
    } else {
      FailureReaches(cfg, at, AppError(operation.error), r);
      PlannedDelay(cfg, at, AppError(operation.error), r);
      next := Enter(RecordFailureStep(cfg, s.flow, AppError(operation.error), r), p => Waiting(p));
    }
  }

  /** Polling in order is a piece of a run. */
  lemma {:induction false} PollsReach(cfg: Config, s: State, polls: seq<Boundary>)
    requires s.phase.Waiting?
    ensures match PollAll(s.flow, s.phase.plan.deadline, polls)
            case PollReady(f) => Reaches(cfg, s, State(f, s.phase))
            case PollStopped(f, e) => Reaches(cfg, s, State(f, Stopped(e)))
            case PollPending(f) => Reaches(cfg, s, State(f, s.phase))
    decreases |polls|
  {
    if polls == [] {
      StaysReached(cfg, s);
    } else {
      StepReaches(cfg, s, Poll(polls[0]));
      var polled := CheckBackoffStep(s.flow, polls[0], s.phase.plan.deadline);
      if polled.Go? && !polled.value {
        var later := State(polled.flow, s.phase);
        PollsReach(cfg, later, polls[1..]);
        match PollAll(later.flow, later.phase.plan.deadline, polls[1..])
        case PollReady(f) => ReachesOn(cfg, s, later, State(f, s.phase));
        case PollStopped(f, e) => ReachesOn(cfg, s, later, State(f, Stopped(e)));
        case PollPending(f) => ReachesOn(cfg, s, later, State(f, s.phase));
      }
    }
  }

  lemma PolledIsPiece(cfg: Config, s: State, f: Flow, plan: Plan, polls: seq<Boundary>)
    requires Reaches(cfg, s, State(f, Waiting(plan)))
    ensures IsPiece(cfg, EndOfPolls(PollAll(f, plan.deadline, polls), plan), s)
  {
    var waiting := State(f, Waiting(plan));
    PollsReach(cfg, waiting, polls);
    match PollAll(f, plan.deadline, polls)
    case PollReady(g) => ReachesOn(cfg, s, waiting, State(g, Waiting(plan)));
    case PollStopped(g, e) =>
      ReachesOn(cfg, s, waiting, State(g, Stopped(e)));
      FailureEnds(cfg, s, g, e);
    case PollPending(g) =>
      ReachesOn(cfg, s, waiting, State(g, Waiting(plan)));
      assert Matches(Waiting(plan), Abandoned(Snapshot(g)));
  }

  lemma SessionIterationIsPiece(cfg: Config, s: State, row: SessionRow)
    requires Resting(cfg, s) && !Timed(cfg)
    ensures IsPiece(cfg, SessionIterate(cfg, s.flow, row), s)
  {
    var admitted := AdmitStep(cfg, s.flow, row.row.before, row.row.commit);
    UntimedAdmissionReaches(cfg, s, row.row.before, row.row.commit);
    if admitted.Stop? {
      FailureEnds(cfg, s, admitted.flow, admitted.error);
      assert SessionIterate(cfg, s.flow, row) == Last(admitted.flow, Failure(admitted.error), false);
      return;
    }
    var active := State(admitted.flow, Active);
    ReachesKeepsInv(cfg, s, active);
    var settled := Settle(cfg, admitted.flow, row.row.operation, row.row.finished, row.row.failure);
    SettleReaches(cfg, active, row.row.operation, row.row.finished, row.row.failure);
    SettledOn(cfg, s, active, settled);
    if settled.Again? {
      PolledIsPiece(cfg, s, settled.flow, settled.plan, row.polls);
      assert SessionIterate(cfg, s.flow, row)
          == EndOfPolls(PollAll(settled.flow, settled.plan.deadline, row.polls), settled.plan);
    } else {
      assert SessionIterate(cfg, s.flow, row) == Last(settled.flow, settled.terminal, true);
    }
  }

  /** The whole run of a session's owner, given up or not, is a run. */
  lemma SessionIsRun(cfg: Config, startedAt: Instant, script: nat -> SessionRow)
    requires ValidLimits(cfg.limits) && !Timed(cfg)
    ensures var e := SessionFrom(cfg, Start(cfg, startedAt), script, 0, 0);
            Ends(cfg, NewState(cfg, startedAt), e.flow, e.terminal)
  {
    SessionIteratorCounting(cfg);
    NewStateInv(cfg, startedAt);
    forall s: State, row: SessionRow | Resting(cfg, s) ensures IsPiece(cfg, SessionIterator(cfg)(s.flow, row), s) {
      SessionIterationIsPiece(cfg, s, row);
    }
    DriveIsRun(cfg, SessionIterator(cfg), NewState(cfg, startedAt), script);
  }
}
