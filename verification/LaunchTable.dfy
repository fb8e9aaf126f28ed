/**
 When a facade calls its operation, and otherwise for which reason it does not: the admission
 tables put together with the preparation, the timer registration and the thread spawn.
 */
module LaunchTable {
  import opened Options
  import opened Time
  import opened Accounting
  import opened FlowModel
  import opened FlowDeadlines
  import opened FailureTable
  import opened AdmissionTable
  import opened CompletionTable
  import opened Driving
  import opened RetryLoop
  import opened RetrySession
  import opened TimedLoop

  // --- The same-thread facade ------------------------------------------------------------------------

  predicate Callable(cfg: Config, f: Flow, before: BeforeInputs, commit: Boundary) {
    Announceable(cfg, f, before) && Committable(cfg, f.budget, before.after.now, None, commit)
  }

  function AdmitRows(cfg: Config, f: Flow, before: BeforeInputs, commit: Boundary): Option<Reason> {
    if BeforeRows(cfg, f, before).Some? then BeforeRows(cfg, f, before)
    else CommitRows(cfg, f.budget, before.after.now, None, commit)
  }

  /** The admitted attempt is the next one and runs from the commit sample. */
  predicate StartedAt(b: Budget, now: Instant, g: Budget) {
    g == b.(attempts := b.attempts + 1, sampledAt := now, active := Some(now))
  }

  /** The stop keeps the count of attempts and names the last failure. */
  predicate NotCalled(f: Flow, g: Flow, e: RetryError) {
    g.budget.attempts == f.budget.attempts == e.context.attempts && e.lastFailure == f.lastFailure
  }

  lemma SampledGates(cfg: Config, b: Budget, since: Instant, plan: Option<Timeout>, at: Boundary)
    ensures Committable(cfg, Sampled(b, since), since, plan, at) == Committable(cfg, b, since, plan, at)
    ensures CommitRows(cfg, Sampled(b, since), since, plan, at) == CommitRows(cfg, b, since, plan, at)
  {
  }

  lemma AnnouncedInv(cfg: Config, f: Flow, r: BeforeInputs)
    requires Inv(f.budget) && BeforeAttemptStep(cfg, f, r).Go?
    ensures var g := BeforeAttemptStep(cfg, f, r).flow;
            Inv(g.budget) && g.budget == Sampled(f.budget, r.after.now) && g.lastFailure == f.lastFailure
  {
    if Announced(cfg, f, r) {
      NotificationDecides(cfg, f, r);
      AnnounceableIsNoRow(cfg, f, r);
      SampledInv(f.budget, r.after.now);
    } else {
      EntryDecides(cfg, f, r);
    }
  }

  lemma AdmitDecides(cfg: Config, f: Flow, before: BeforeInputs, commit: Boundary)
    requires Inv(f.budget)
    ensures match AdmitStep(cfg, f, before, commit)
            case Go(g, _) => Callable(cfg, f, before, commit) && StartedAt(f.budget, commit.now, g.budget)
            case Stop(g, e) =>
              && !Callable(cfg, f, before, commit) && AdmitRows(cfg, f, before, commit) == Some(e.reason)
              && NotCalled(f, g, e)
  {
    BeforeDecides(cfg, f, before);
    AnnounceableIsNoRow(cfg, f, before);
    var announced := BeforeAttemptStep(cfg, f, before);
    if announced.Go? {
      AnnouncedInv(cfg, f, before);
      CommitDecides(cfg, announced.flow, None, commit);
      SampledGates(cfg, f.budget, before.after.now, None, commit);
    }
  }

  /** One pass of the loop calls the operation exactly when nothing stands in the way. */
  lemma CalledExactly(cfg: Config, f: Flow, row: Row)
    requires Inv(f.budget)
    ensures var i := Iterate(cfg, f, row);
            && ((i.Continue? || i.called) <==> Callable(cfg, f, row.before, row.commit))
            && (!Callable(cfg, f, row.before, row.commit) ==>
                  && i.Last? && i.terminal.Failure?
                  && AdmitRows(cfg, f, row.before, row.commit) == Some(i.terminal.error.reason))
  {
    AdmitDecides(cfg, f, row.before, row.commit);
    var admitted := AdmitStep(cfg, f, row.before, row.commit);
    if admitted.Stop? {
      assert Iterate(cfg, f, row) == Last(admitted.flow, Failure(admitted.error), false);
    } else {
      SettlingCounts(cfg, admitted.flow, row.operation, row.finished, row.failure);
      var settled := Settle(cfg, admitted.flow, row.operation, row.finished, row.failure);
      if settled.Done? {
        assert Iterate(cfg, f, row) == Last(settled.flow, settled.terminal, true);
      } else {
        AfterWaitCounts(settled.flow, settled.plan, WaitOf(row.wait, settled.plan));
        assert Iterate(cfg, f, row) == AfterWait(settled.flow, settled.plan, WaitOf(row.wait, settled.plan));
      }
    }
  }

  // --- The session ----------------------------------------------------------------------------------

  /** A ready session may begin at once; a waiting one at a coherent, uncancelled poll at or after its due instant. */
  predicate Due(s: Session, poll: Boundary) {
    s.phase.SessionReady?
    || (s.phase.SessionWaiting? && Follows(s.flow.budget.sampledAt, poll.now) && !poll.cancelled
        && s.phase.due.at <= poll.now.at)
  }

  /** The flow from which the admission is tried: a poll moves the last sample. */
  function Polled(s: Session, poll: Boundary): Flow {
    if s.phase.SessionWaiting? then s.flow.(budget := s.flow.budget.(sampledAt := poll.now)) else s.flow
  }

  function PollRow(s: Session, poll: Boundary): Option<Reason> {
    if !s.phase.SessionWaiting? then None
    else if !Follows(s.flow.budget.sampledAt, poll.now) then CLOCK_ROW
    else if poll.cancelled then Some(Cancelled(DuringBackoff))
    else None
  }

  /** Beginning starts an attempt, answers not yet, or ends the session, exactly as the tables say. */
  lemma BeginDecides(cfg: Config, s: Session, poll: Boundary, before: BeforeInputs, commit: Boundary)
    requires SessionInv(cfg, s) && MayBegin(s)
    ensures var (t, a) := Begin(cfg, s, poll, before, commit);
            match a
            case Started(ordinal) =>
              && Due(s, poll) && Callable(cfg, Polled(s, poll), before, commit)
              && ordinal == s.flow.budget.attempts + 1 && t.flow.budget.active == Some(commit.now)
            case NotYet(due) =>
              && s.phase == SessionWaiting(due) && !Due(s, poll) && PollRow(s, poll).None?
              && t == s.(flow := Polled(s, poll))
            case Refused(e) =>
              && t.ended == Some(Failure(e)) && e.lastFailure == s.flow.lastFailure
              && t.flow.budget.attempts == s.flow.budget.attempts
              && (if PollRow(s, poll).Some? then PollRow(s, poll) == Some(e.reason)
                  else Due(s, poll) && !Callable(cfg, Polled(s, poll), before, commit)
                       && AdmitRows(cfg, Polled(s, poll), before, commit) == Some(e.reason))
  {
    if s.phase.SessionWaiting? {
      PollDecides(s.flow, poll, s.phase.due);
    }
    var g := Gate(s, poll);
    if g.Go? && g.value {
      if s.phase.SessionWaiting? { SampledInv(s.flow.budget, poll.now); }
      assert g.flow == Polled(s, poll);
      AdmitDecides(cfg, g.flow, before, commit);
    }
  }

  /** Recording answers with the value and its own time, with the planned deadline, or with the terminal error. */
  lemma RecordDecides(cfg: Config, s: Session, operation: Result<int, int>, finished: Instant, r: FailureInputs)
    requires SessionInv(cfg, s) && s.phase.SessionActive?
    ensures var (t, a) := Record(cfg, s, operation, finished, r);
            match operation
            case Ok(value) =>
              if Follows(s.flow.budget.sampledAt, finished)
              then a.Completed? && a.value == value && RanUntil(a.context, s.flow.budget, finished)
                   && t.ended == Some(Success(value, a.context))
              else a.FailedWith? && Some(a.error.reason) == CLOCK_ROW && t.ended == Some(Failure(a.error))
            case Err(code) =>
              match RecordFailureStep(cfg, s.flow, AppError(code), r)
              case Go(_, plan) => a == RetryAt(plan.deadline) && t.ended == s.ended
              case Stop(_, e) => a == FailedWith(e) && t.ended == Some(Failure(e))
  {
    if operation.Ok? { SuccessDecides(s.flow, finished); }
  }

  // --- The facades with hard deadlines ---------------------------------------------------------------

  predicate Launchable(cfg: Config, f: Flow, row: TimedRow) {
    var now := row.before.after.now;
    && Announceable(cfg, f, row.before) && Representable(cfg, f.budget, now)
    && (Timed(cfg) ==> row.registration.None?) && row.spawn.None?
    && Committable(cfg, f.budget, now, PlanAt(cfg, f.budget, now), row.commit)
  }

  /** A preparation that failed is reported at its own sample, unless that sample is unusable. */
  function SetUpRow(since: Instant, now: Instant, infrastructure: Infrastructure): Option<Reason> {
    if Follows(since, now) then Some(InfrastructureFailed(infrastructure)) else CLOCK_ROW
  }

  function ReleaseRows(cfg: Config, b: Budget, now: Instant, row: TimedRow): Option<Reason> {
    if !Representable(cfg, b, now) then CLOCK_ROW
    else if Timed(cfg) && row.registration.Some? then SetUpRow(now, row.registration.value, TimerFailed)
    else if row.spawn.Some? then SetUpRow(now, row.spawn.value, WorkerSpawnFailed)
    else CommitRows(cfg, b, now, PlanAt(cfg, b, now), row.commit)
  }

  function LaunchRows(cfg: Config, f: Flow, row: TimedRow): Option<Reason> {
    if BeforeRows(cfg, f, row.before).Some? then BeforeRows(cfg, f, row.before)
    else ReleaseRows(cfg, f.budget, row.before.after.now, row)
  }

  lemma LaunchableIsNoRow(cfg: Config, f: Flow, row: TimedRow)
    ensures LaunchRows(cfg, f, row).None? <==> Launchable(cfg, f, row)
  {
    var now := row.before.after.now;
    AnnounceableIsNoRow(cfg, f, row.before);
    CommittableIsNoRow(cfg, f.budget, now, PlanAt(cfg, f.budget, now), row.commit);
  }

  lemma SetUpDecides(f: Flow, timeout: Option<Timeout>, registration: Option<Instant>, spawn: Option<Instant>)
    requires Inv(f.budget) && f.budget.active.None?
    ensures match SetUp(f, timeout, registration, spawn)
            case Go(g, _) => g == f && (timeout.Some? ==> registration.None?) && spawn.None?
            case Stop(g, e) =>
              && NotCalled(f, g, e)
              && (if timeout.Some? && registration.Some?
                  then SetUpRow(f.budget.sampledAt, registration.value, TimerFailed) == Some(e.reason)
                  else spawn.Some? && SetUpRow(f.budget.sampledAt, spawn.value, WorkerSpawnFailed) == Some(e.reason))
  {
    if timeout.Some? && registration.Some? {
      IdleBreakdownDecides(ClearOverlay(f), TimerFailed, registration.value);
    } else if spawn.Some? {
      IdleBreakdownDecides(ClearOverlay(f), WorkerSpawnFailed, spawn.value);
    }
  }

  lemma ReleaseDecides(cfg: Config, f: Flow, row: TimedRow)
    requires Inv(f.budget) && f.budget.active.None?
    requires Below(cfg.flowTimeout, f.budget.sampledAt.at - f.budget.startedAt.at)
    ensures var now := f.budget.sampledAt;
            match Release(cfg, f, now, row)
            case Go(g, timeout) =>
              && ReleaseRows(cfg, f.budget, now, row).None? && timeout == PlanAt(cfg, f.budget, now)
              && StartedAt(f.budget, row.commit.now, g.budget)
            case Stop(g, e) => ReleaseRows(cfg, f.budget, now, row) == Some(e.reason) && NotCalled(f, g, e)
  {
    PrepareDecides(cfg, f);
    var prepared := PrepareAttemptStep(cfg, f, f.budget.sampledAt);
    if prepared.Go? {
      SetUpDecides(prepared.flow, prepared.value, row.registration, row.spawn);
      CommitDecides(cfg, prepared.flow, prepared.value, row.commit);
      CommittableIsNoRow(cfg, f.budget, f.budget.sampledAt, prepared.value, row.commit);
    }
  }

  lemma SampledRelease(cfg: Config, b: Budget, now: Instant, row: TimedRow)
    ensures ReleaseRows(cfg, Sampled(b, now), now, row) == ReleaseRows(cfg, b, now, row)
    ensures PlanAt(cfg, Sampled(b, now), now) == PlanAt(cfg, b, now)
  {
  }

  /** An attempt with a hard deadline is launched exactly when the table has no row, with the earlier deadline. */
  lemma LaunchDecides(cfg: Config, f: Flow, row: TimedRow)
    requires Inv(f.budget) && f.budget.active.None?
    ensures match TimedAdmit(cfg, f, row)
            case Go(g, timeout) =>
              && Launchable(cfg, f, row) && timeout == PlanAt(cfg, f.budget, row.before.after.now)
              && StartedAt(f.budget, row.commit.now, g.budget)
            case Stop(g, e) =>
              && !Launchable(cfg, f, row) && LaunchRows(cfg, f, row) == Some(e.reason) && NotCalled(f, g, e)
  {
    BeforeDecides(cfg, f, row.before);
    AnnounceableIsNoRow(cfg, f, row.before);
    LaunchableIsNoRow(cfg, f, row);
    var announced := BeforeAttemptStep(cfg, f, row.before);
    if announced.Go? {
      AnnouncedInv(cfg, f, row.before);
      ReleaseDecides(cfg, announced.flow, row);
      SampledRelease(cfg, f.budget, row.before.after.now, row);
    }
  }

  lemma LaunchedExactly(cfg: Config, f: Flow, row: TimedRow)
    requires Inv(f.budget) && f.budget.active.None?
    ensures var i := TimedIterate(cfg, f, row);
            && ((i.Continue? || i.called) <==> Launchable(cfg, f, row))
            && (!Launchable(cfg, f, row) ==>
                  i.Last? && i.terminal.Failure? && LaunchRows(cfg, f, row) == Some(i.terminal.error.reason))
  {
    LaunchDecides(cfg, f, row);
    var admitted := TimedAdmit(cfg, f, row);
    if admitted.Go? {
      SettledCounts(cfg, admitted.flow, admitted.value, row);
    }
  }
}
