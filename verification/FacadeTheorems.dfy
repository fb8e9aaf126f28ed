/**
 The theorems about every run of the controller, restated on what the facades return.
 */
module FacadeTheorems {
  import opened Options
  import opened Time
  import opened Accounting
  import opened FlowModel
  import opened FailureTable
  import opened FlowDeadlines
  import opened FlowRuns
  import opened ObserverProtocol
  import opened Driving
  import opened RetryLoop
  import opened TimedLoop
  import opened SessionRefinesLoop
  import opened FacadeRuns
  import WorkerFacade
  import WorkerFlow
  import WorkerFlowRuns

  lemma {:induction false} PathIsRun(cfg: Config, s: State, commands: seq<Command>, t: State) returns (run: seq<State>)
    requires Leads(cfg, s, commands, t)
    ensures |run| == |commands| + 1 && run[0] == s && run[|commands|] == t
    ensures forall i :: 0 <= i < |commands| ==>
              Allowed(cfg, run[i], commands[i]) && run[i + 1] == FlowRuns.Next(cfg, run[i], commands[i])
    decreases |commands|
  {
    if commands == [] {
      run := [s];
    } else {
      var rest := PathIsRun(cfg, FlowRuns.Next(cfg, s, commands[0]), commands[1..], t);
      run := [s] + rest;
      forall i | 0 <= i < |commands|
        ensures Allowed(cfg, run[i], commands[i]) && run[i + 1] == FlowRuns.Next(cfg, run[i], commands[i])
      {
        if i > 0 {
          assert run[i] == rest[i - 1] && run[i + 1] == rest[i] && commands[i] == commands[1..][i - 1];
        }
      }
    }
  }

  /** The run behind an ending: it starts afresh, ends with the ending's flow, and its last phase is the result's. */
  lemma EndingIsRun(cfg: Config, startedAt: Instant, f: Flow, t: Terminal)
      returns (run: seq<State>, commands: seq<Command>)
    requires ValidLimits(cfg.limits) && Ends(cfg, NewState(cfg, startedAt), f, t)
    ensures FlowRuns.IsRun(cfg, run, commands)
    ensures run[0] == NewState(cfg, startedAt) && run[|commands|].flow == f && Matches(run[|commands|].phase, t)
  {
    var phase :| Matches(phase, t) && Reaches(cfg, NewState(cfg, startedAt), State(f, phase));
    commands :| Leads(cfg, NewState(cfg, startedAt), commands, State(f, phase));
    run := PathIsRun(cfg, NewState(cfg, startedAt), commands, State(f, phase));
  }

  /** The attempt limit is reported only with every attempt used and the last failure at hand. */
  predicate LimitReported(cfg: Config, t: Terminal) {
    t.Failure? && t.error.reason == Exhausted(AttemptLimit) ==>
      t.error.context.attempts == cfg.limits.maxAttempts && t.error.lastFailure.Some?
  }

  /** What holds of the flow and the result of every run, and with them of every facade. */
  ghost predicate RunPromises(cfg: Config, f: Flow, t: Terminal) {
    && Cyclic(f.trace)
    && Admissions(f.trace) == f.budget.attempts == TerminalContext(t).attempts
    && AdmissionsSafe(cfg, f.budget.startedAt, f.trace)
    && f.budget.operationElapsed == TotalTime(f.budget.completed) <= TotalElapsed(f.budget)
    && (FlowRuns.Closed(cfg) ==> f.budget.attempts == 0)
    && LimitReported(cfg, t)
    && (t.Success? ==> f.trace != [] && f.trace[|f.trace| - 1].Admitted?)
  }

  lemma MatchedLimit(cfg: Config, run: seq<State>, commands: seq<Command>, t: Terminal)
    requires FlowRuns.IsRun(cfg, run, commands) && Matches(run[|commands|].phase, t)
    ensures LimitReported(cfg, t)
  {
    if t.Failure? && t.error.reason == Exhausted(AttemptLimit) {
      assert |commands| > 0;
      AttemptLimitOnlyAfterFailure(cfg, run, commands, |commands|);
    }
  }

  lemma EndingKeepsPromises(cfg: Config, startedAt: Instant, f: Flow, t: Terminal)
    requires ValidLimits(cfg.limits) && Ends(cfg, NewState(cfg, startedAt), f, t) && Concluded(cfg, f, t)
    ensures RunPromises(cfg, f, t)
  {
    var run, commands := EndingIsRun(cfg, startedAt, f, t);
    var n := |commands|;
    RunInOrder(cfg, run, commands, n);
    RunConservesTime(cfg, run, commands, n);
    MatchedLimit(cfg, run, commands, t);
    if FlowRuns.Closed(cfg) { ClosedNeverAdmits(cfg, run, commands, n); }
    if t.Success? { SuccessEndsWithAdmission(cfg, run, commands, n); }
  }

  // --- The attempt limit and the last row ------------------------------------------------------------------

  lemma LimitAfterFailureOnly(cfg: Config, f: Flow, failure: Failure, r: FailureInputs)
    requires f.budget.active.Some?
    ensures var s := RecordFailureStep(cfg, f, failure, r); s.Stop? ==> s.error.lastFailure == Some(failure)
  {
    TableDecides(cfg, f, failure, r);
  }

  lemma AdmissionSparesLimit(cfg: Config, f: Flow, before: BeforeInputs, commit: Boundary)
    requires f.budget.attempts < f.budget.limits.maxAttempts
    ensures var s := AdmitStep(cfg, f, before, commit); s.Stop? ==> s.error.reason != Exhausted(AttemptLimit)
  {
    GatesSpareAttempts(cfg, f, before, None, commit);
    var announced := BeforeAttemptStep(cfg, f, before);
    if announced.Go? {
      BeforeCounts(cfg, f, before);
      GatesSpareAttempts(cfg, announced.flow, before, None, commit);
    }
  }

  lemma SettleReportsLimit(cfg: Config, f: Flow, operation: Result<int, int>, finished: Instant, r: FailureInputs)
    requires f.budget.active.Some?
    ensures var s := Settle(cfg, f, operation, finished, r);
            s.Done? && s.terminal.Failure? && s.terminal.error.reason == Exhausted(AttemptLimit) ==>
              operation.Err? && s.terminal.error.lastFailure == Some(AppError(operation.error))
  {
    if operation.Err? { LimitAfterFailureOnly(cfg, f, AppError(operation.error), r); }
  }

  /** A run that used up its attempts reports the error of its last operation. */
  predicate LastErrorReported(row: Row, t: Terminal) {
    t.Failure? && t.error.reason == Exhausted(AttemptLimit) ==>
      row.operation.Err? && t.error.lastFailure == Some(AppError(row.operation.error))
  }

  lemma IterationReportsLimit(cfg: Config, f: Flow, row: Row)
    requires Idle(cfg, f)
    ensures var i := Iterate(cfg, f, row); i.Last? ==> LastErrorReported(row, i.terminal)
  {
    AdmissionSparesLimit(cfg, f, row.before, row.commit);
    var admitted := AdmitStep(cfg, f, row.before, row.commit);
    if admitted.Go? {
      SettleReportsLimit(cfg, admitted.flow, row.operation, row.finished, row.failure);
    }
  }

  lemma LoopReportsLimit(cfg: Config, startedAt: Instant, script: nat -> Row)
    requires ValidLimits(cfg.limits)
    ensures var e := LoopFrom(cfg, Start(cfg, startedAt), script, 0, 0);
            0 < e.rows && LastErrorReported(script(e.rows - 1), e.terminal)
  {
    var step := Iterator(cfg);
    IteratorCounting(cfg);
    StartIdle(cfg, startedAt);
    var inv, done := (g: Flow) => Idle(cfg, g), (row: Row, g: Flow, t: Terminal) => LastErrorReported(row, t);
    forall g: Flow, row: Row | inv(g) ensures Carried(step(g, row), row, inv, done) {
      IterateKept(cfg, g, row);
      IterationReportsLimit(cfg, g, row);
    }
    DriveKeeps(step, Start(cfg, startedAt), script, 0, 0, inv, done);
  }

  // --- The facades --------------------------------------------------------------------------------------------

  /**
   The same-thread facade: its events are in order, its admissions numbered and within every
   limit, its time conserved; a zero budget means no operation; and the attempt limit is reported
   only after all attempts, with the error of the last operation.
   */
  lemma RetryKeepsPromises(cfg: Config, startedAt: Instant, script: nat -> Row)
    requires ValidLimits(cfg.limits) && !Timed(cfg)
    ensures var e := LoopFrom(cfg, Start(cfg, startedAt), script, 0, 0);
            && RunPromises(cfg, e.flow, e.terminal)
            && (FlowRuns.Closed(cfg) ==> e.calls == 0)
            && e.rows > 0 && LastErrorReported(script(e.rows - 1), e.terminal)
  {
    var e := LoopFrom(cfg, Start(cfg, startedAt), script, 0, 0);
    LoopIsRun(cfg, startedAt, script);
    StartIdle(cfg, startedAt);
    LoopConcludes(cfg, Start(cfg, startedAt), script, 0, 0);
    EndingKeepsPromises(cfg, startedAt, e.flow, e.terminal);
    LoopReportsLimit(cfg, startedAt, script);
    RunSound(cfg, startedAt, script);
  }

  /** The asynchronous and the worker facade, with whatever hard timeouts they have. */
  lemma TimedFacadesKeepPromises(cfg: Config, startedAt: Instant, script: nat -> TimedRow)
    requires ValidLimits(cfg.limits)
    ensures var e := TimedFrom(cfg, Start(cfg, startedAt), script, 0, 0);
            && RunPromises(cfg, e.flow, e.terminal)
            && (FlowRuns.Closed(cfg) ==> e.calls == 0)
  {
    var e := TimedFrom(cfg, Start(cfg, startedAt), script, 0, 0);
    TimedLoopIsRun(cfg, startedAt, script);
    StartIdle(cfg, startedAt);
    TimedConcludes(cfg, Start(cfg, startedAt), script, 0, 0);
    EndingKeepsPromises(cfg, startedAt, e.flow, e.terminal);
    TimedRunSound(cfg, startedAt, script);
  }

  /**
   The worker facade again, in every interleaving of its attempts: a zero budget means no thread
   runs the operation.
   */
  lemma WorkerFlowKeepsPromises(
      env: WorkerFlow.Setting, startedAt: Instant, run: seq<WorkerFlow.World>, moves: seq<WorkerFlow.Move>, i: nat)
    requires WorkerFlow.IsRun(env, startedAt, run, moves) && i < |run| && run[i].control.Finished?
    ensures RunPromises(env.cfg, run[i].flow, run[i].control.terminal)
    ensures FlowRuns.Closed(env.cfg) ==> WorkerFlowRuns.Calls(run[i].slots.attempts) == 0
  {
    var script := WorkerFlowRuns.ScriptOf(env, run[i].rows);
    WorkerFlowRuns.FlowIsLoop(env, startedAt, run, moves, i, script);
    TimedFacadesKeepPromises(env.cfg, startedAt, WorkerFacade.AllTimed(env.cancellable, script));
    WorkerFlowRuns.CallsMatchAttempts(env, startedAt, run, moves, i);
  }

  lemma {:induction false} PollsConclude(cfg: Config, f: Flow, plan: Plan, polls: seq<Boundary>)
    requires Idle(cfg, f) && WaitingInv(cfg, f, plan)
    ensures match PollAll(f, plan.deadline, polls)
            case PollReady(g) => Idle(cfg, g)
            case PollStopped(g, e) => Concluded(cfg, g, Failure(e))
            case PollPending(g) => Concluded(cfg, g, Abandoned(Snapshot(g)))
    decreases |polls|
  {
    if polls != [] {
      PolledKept(cfg, f, polls[0], plan);
      var s := CheckBackoffStep(f, polls[0], plan.deadline);
      if s.Go? && !s.value { PollsConclude(cfg, s.flow, plan, polls[1..]); }
    }
  }

  lemma SessionIterationKept(cfg: Config, f: Flow, row: SessionRow)
    requires Idle(cfg, f)
    ensures var i := SessionIterate(cfg, f, row);
            (i.Last? ==> Concluded(cfg, i.flow, i.terminal)) && (i.Continue? ==> Idle(cfg, i.flow))
  {
    AdmitKept(cfg, f, row.row.before, row.row.commit);
    var admitted := AdmitStep(cfg, f, row.row.before, row.row.commit);
    if admitted.Go? {
      SettleKept(cfg, admitted.flow, row.row.operation, row.row.finished, row.row.failure);
      var settled := Settle(cfg, admitted.flow, row.row.operation, row.row.finished, row.row.failure);
      if settled.Again? {
        PollsConclude(cfg, settled.flow, settled.plan, row.polls);
      }
    }
  }

  lemma SessionConcludes(cfg: Config, startedAt: Instant, script: nat -> SessionRow)
    requires ValidLimits(cfg.limits)
    ensures var e := SessionFrom(cfg, Start(cfg, startedAt), script, 0, 0); Concluded(cfg, e.flow, e.terminal)
  {
    var step := SessionIterator(cfg);
    SessionIteratorCounting(cfg);
    StartIdle(cfg, startedAt);
    var inv := (g: Flow) => Idle(cfg, g);
    var done := (row: SessionRow, g: Flow, t: Terminal) => Concluded(cfg, g, t);
    forall g: Flow, row: SessionRow | inv(g) ensures Carried(step(g, row), row, inv, done) {
      SessionIterationKept(cfg, g, row);
    }
    DriveKeeps(step, Start(cfg, startedAt), script, 0, 0, inv, done);
  }

  /** The session, however its owner polls and even if the owner gives up. */
  lemma SessionKeepsPromises(cfg: Config, startedAt: Instant, script: nat -> SessionRow)
    requires ValidLimits(cfg.limits) && !Timed(cfg)
    ensures var e := SessionFrom(cfg, Start(cfg, startedAt), script, 0, 0);
            && RunPromises(cfg, e.flow, e.terminal)
            && (FlowRuns.Closed(cfg) ==> e.calls == 0)
  {
    var e := SessionFrom(cfg, Start(cfg, startedAt), script, 0, 0);
    SessionIsRun(cfg, startedAt, script);
    SessionConcludes(cfg, startedAt, script);
    EndingKeepsPromises(cfg, startedAt, e.flow, e.terminal);
    SessionIteratorCounting(cfg);
    DriveCounts(SessionIterator(cfg), Start(cfg, startedAt), script, 0, 0);
  }
}
