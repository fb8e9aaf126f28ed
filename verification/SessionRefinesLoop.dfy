/**
 A session driven by its owner behaves exactly like the loop.

 A session row is a loop row whose wait is replaced by the owner's polls: any number of
 early ones and a last one. The owner polls until it is answered; it may also give up.
 */
module SessionRefinesLoop {
  import opened Options
  import opened Time
  import opened Accounting
  import opened FlowModel
  import opened FailureTable
  import opened Driving
  import opened RetryLoop
  import opened RetrySession
  import opened Completion

  datatype SessionRow = SessionRow(row: Row, polls: seq<Boundary>)

  datatype PollEnd = PollReady(flow: Flow) | PollStopped(flow: Flow, error: RetryError) | PollPending(flow: Flow)

  /** Polling in order until the session is ready or has stopped. */
  function PollAll(f: Flow, due: Instant, polls: seq<Boundary>): PollEnd
    decreases |polls|
  {
    if polls == [] then PollPending(f)
    else match CheckBackoffStep(f, polls[0], due)
      case Stop(g, e) => PollStopped(g, e)
      case Go(g, ready) => if ready then PollReady(g) else PollAll(g, due, polls[1..])
  }

  function EndOfPolls(p: PollEnd, plan: Plan): Iteration {
    match p
    case PollReady(g) => Continue(g, plan)
    case PollStopped(g, e) => Last(g, Failure(e), true)
    case PollPending(g) => Last(g, Abandoned(Snapshot(g)), true)
  }

  function SessionIterate(cfg: Config, f: Flow, s: SessionRow): Iteration {
    match AdmitStep(cfg, f, s.row.before, s.row.commit)
    case Stop(g, e) => Last(g, Failure(e), false)
    case Go(g, _) =>
      match Settle(cfg, g, s.row.operation, s.row.finished, s.row.failure)
      case Done(h, t) => Last(h, t, true)
      case Again(h, plan) => EndOfPolls(PollAll(h, plan.deadline, s.polls), plan)
  }

  function SessionIterator(cfg: Config): (Flow, SessionRow) -> Iteration {
    (f: Flow, s: SessionRow) => SessionIterate(cfg, f, s)
  }

  lemma {:induction false} PollsCount(f: Flow, due: Instant, polls: seq<Boundary>)
    ensures SameCount(f, PollAll(f, due, polls).flow)
    decreases |polls|
  {
    if polls != [] {
      var s := CheckBackoffStep(f, polls[0], due);
      if s.Go? && !s.value { PollsCount(s.flow, due, polls[1..]); }
    }
  }

  lemma SessionIterateCounts(cfg: Config, f: Flow, s: SessionRow)
    ensures Counted(f, SessionIterate(cfg, f, s))
  {
    AdmissionCounts(cfg, f, s.row.before, s.row.commit);
    var admitted := AdmitStep(cfg, f, s.row.before, s.row.commit);
    if admitted.Stop? {
      assert SessionIterate(cfg, f, s) == Last(admitted.flow, Failure(admitted.error), false);
      return;
    }
    SettlingCounts(cfg, admitted.flow, s.row.operation, s.row.finished, s.row.failure);
    var settled := Settle(cfg, admitted.flow, s.row.operation, s.row.finished, s.row.failure);
    if settled.Done? {
      assert SessionIterate(cfg, f, s) == Last(settled.flow, settled.terminal, true);
    } else {
      PollsCount(settled.flow, settled.plan.deadline, s.polls);
      assert SessionIterate(cfg, f, s)
          == EndOfPolls(PollAll(settled.flow, settled.plan.deadline, s.polls), settled.plan);
    }
  }

  lemma SessionIteratorCounting(cfg: Config)
    ensures Counting(SessionIterator(cfg))
  {
    forall f: Flow, s: SessionRow ensures Counted(f, SessionIterator(cfg)(f, s)) {
      SessionIterateCounts(cfg, f, s);
    }
  }

  ghost function SessionFrom(cfg: Config, f: Flow, script: nat -> SessionRow, rows: nat, calls: nat): Ending {
    SessionIteratorCounting(cfg);
    Drive(SessionIterator(cfg), f, script, rows, calls)
  }

  // --- An owner that uses nothing but the session's two calls --------------------------------------

  /** Polls until the session answers; every call offers the next row for admission. */
  function OwnerPolls(cfg: Config, s: Session, polls: seq<Boundary>, next: Row): (Session, Option<Admission>)
    decreases |polls|
  {
    if polls == [] then (s, None)
    else
      var (t, a) := Begin(cfg, s, polls[0], next.before, next.commit);
      if a.NotYet? then OwnerPolls(cfg, t, polls[1..], next) else (t, Some(a))
  }

  /** Records one result and polls on; None means that the next operation has been admitted. */
  function OwnerTurn(cfg: Config, s: Session, row: SessionRow, next: Row): (Session, Option<Terminal>)
    requires s.flow.budget.active.Some?
  {
    match Record(cfg, s, row.row.operation, row.row.finished, row.row.failure)
    case (t, Completed(value, context)) => (t, Some(Success(value, context)))
    case (t, FailedWith(e)) => (t, Some(Failure(e)))
    case (t, RetryAt(_)) =>
      match OwnerPolls(cfg, t, row.polls, next)
      case (u, None) => (u, Some(Abandoned(Snapshot(u.flow))))
      case (u, Some(Refused(e))) => (u, Some(Failure(e)))
      case (u, Some(_)) => (u, None)
  }

  lemma {:induction false} OwnerPollsMeaning(cfg: Config, s: Session, polls: seq<Boundary>, next: Row)
    requires s.phase.SessionWaiting?
    ensures var (t, a) := OwnerPolls(cfg, s, polls, next);
            match PollAll(s.flow, s.phase.due, polls)
            case PollPending(f) => a.None? && t == s.(flow := f)
            case PollStopped(f, e) => a == Some(Refused(e)) && t == Ended(s, f, Failure(e))
            case PollReady(f) =>
              match AdmitStep(cfg, f, next.before, next.commit)
              case Stop(g, e) => a == Some(Refused(e)) && t == Ended(s, g, Failure(e))
              case Go(g, _) => a == Some(Started(g.budget.attempts)) && t == s.(flow := g, phase := SessionActive)
    decreases |polls|
  {
    if polls != [] {
      var (t, a) := Begin(cfg, s, polls[0], next.before, next.commit);
      if a.NotYet? { OwnerPollsMeaning(cfg, t, polls[1..], next); }
    }
  }

  /** An owner that has an answer has a session that ended with it; one that gave up still has its session. */
  predicate EndedWith(s: Session, t: Session, f: Flow, end: Terminal) {
    t.flow == f && (end.Abandoned? || t == Ended(s, f, end))
  }

  /** What a turn leaves behind, given the iteration and the admission of the next row. */
  predicate TurnMeans(s: Session, turned: (Session, Option<Terminal>), i: Iteration, next: Step<()>) {
    match i
    case Last(f, end, called) => called && turned.1 == Some(end) && EndedWith(s, turned.0, f, end)
    case Continue(_, _) =>
      match next
      case Stop(g, e) => turned.1 == Some(Failure(e)) && EndedWith(s, turned.0, g, Failure(e))
      case Go(g, unit) => unit == () && turned.1.None? && turned.0 == s.(flow := g, phase := SessionActive)
  }

  /** A turn of the owner is one iteration of the session run, plus the admission of the next row. */
  lemma OwnerTurnMeaning(cfg: Config, s: Session, idle: Flow, row: SessionRow, next: Row)
    requires s.flow.budget.active.Some?
    requires AdmitStep(cfg, idle, row.row.before, row.row.commit) == Go(s.flow, ())
    ensures TurnMeans(s, OwnerTurn(cfg, s, row, next), SessionIterate(cfg, idle, row),
                     AdmitStep(cfg, SessionIterate(cfg, idle, row).flow, next.before, next.commit))
  {
    var (t, a) := Record(cfg, s, row.row.operation, row.row.finished, row.row.failure);
    if a.RetryAt? {
      OwnerPollsMeaning(cfg, t, row.polls, next);
    }
  }

  /** The session an owner is left with, the result it was given and the operations it ran. */
  datatype Owned = Owned(session: Session, terminal: Terminal, calls: nat)

  type Turn = (Session, SessionRow, Row) -> (Session, Option<Terminal>)

  /** The owner's run from an admitted operation on; `fuel` bounds the turns it is willing to take. */
  function OwnerFrom(turn: Turn, s: Session, script: nat -> SessionRow, k: nat, fuel: nat): Option<Owned>
    decreases fuel
  {
    if fuel == 0 then None
    else match turn(s, script(k), script(k + 1).row)
      case (t, Some(end)) => Some(Owned(t, end, k + 1))
      case (t, None) => OwnerFrom(turn, t, script, k + 1, fuel - 1)
  }

  ghost predicate TurnFollows(turn: Turn, step: (Flow, SessionRow) -> Iteration, admit: (Flow, Row) -> Step<()>) {
    forall s: Session, idle: Flow, row: SessionRow, next: Row {:trigger turn(s, row, next), step(idle, row)} ::
      admit(idle, row.row) == Go(s.flow, ()) ==>
        TurnMeans(s, turn(s, row, next), step(idle, row), admit(step(idle, row).flow, next))
  }

  /** The owner's run ended as the session run did. */
  ghost predicate OwnedAs(o: Option<Owned>, s: Session, e: Ending) {
    o.Some? && o.value.terminal == e.terminal && o.value.calls == e.calls
        && EndedWith(s, o.value.session, e.flow, e.terminal)
  }

  lemma {:induction false} OwnerFollowsDrive(
      turn: Turn, step: (Flow, SessionRow) -> Iteration, admit: (Flow, Row) -> Step<()>,
      s: Session, idle: Flow, script: nat -> SessionRow, k: nat, fuel: nat)
    requires Counting(step) && TurnFollows(turn, step, admit)
    requires forall f: Flow, row: SessionRow :: admit(f, row.row).Stop? ==>
               step(f, row) == Last(admit(f, row.row).flow, Failure(admit(f, row.row).error), false)
    requires admit(idle, script(k).row) == Go(s.flow, ())
    requires idle.budget.attempts + fuel >= idle.budget.limits.maxAttempts && fuel > 0
    ensures OwnedAs(OwnerFrom(turn, s, script, k, fuel), s, Drive(step, idle, script, k, k))
    decreases fuel
  {
    var i := step(idle, script(k));
    LaterRowsCounted(step, idle, script(k));
    var (t, ended) := turn(s, script(k), script(k + 1).row);
    if i.Continue? {
      var later := step(i.flow, script(k + 1));
      LaterRowsCounted(step, i.flow, script(k + 1));
      if ended.None? {
        OwnerFollowsDrive(turn, step, admit, t, i.flow, script, k + 1, fuel - 1);
      }
    }
  }

  function OwnTurn(cfg: Config): Turn {
    (s: Session, row: SessionRow, next: Row) =>
      if s.flow.budget.active.Some? then OwnerTurn(cfg, s, row, next) else (s, None)
  }

  function Admitting(cfg: Config): (Flow, Row) -> Step<()> {
    (f: Flow, row: Row) => AdmitStep(cfg, f, row.before, row.commit)
  }

  /**
   An owner that has been admitted and then only calls the two session operations always finishes
   within the attempts left, exactly as the session run says.
   */
  lemma OwnerRunsSession(cfg: Config, s: Session, idle: Flow, script: nat -> SessionRow, k: nat, fuel: nat)
    requires AdmitStep(cfg, idle, script(k).row.before, script(k).row.commit) == Go(s.flow, ())
    requires idle.budget.attempts + fuel >= idle.budget.limits.maxAttempts && fuel > 0
    ensures OwnedAs(OwnerFrom(OwnTurn(cfg), s, script, k, fuel), s, SessionFrom(cfg, idle, script, k, k))
  {
    SessionIteratorCounting(cfg);
    var turn, step, admit := OwnTurn(cfg), SessionIterator(cfg), Admitting(cfg);
    forall s: Session, idle: Flow, row: SessionRow, next: Row | admit(idle, row.row) == Go(s.flow, ())
      ensures TurnMeans(s, turn(s, row, next), step(idle, row), admit(step(idle, row).flow, next))
    {
      OwnerTurnMeaning(cfg, s, idle, row, next);
    }
    OwnerFollowsDrive(turn, step, admit, s, idle, script, k, fuel);
  }

  /** The whole run of an owner: one first admission, then turns. */
  function OwnerRun(cfg: Config, s: Session, poll: Boundary, script: nat -> SessionRow, fuel: nat): Option<Owned> {
    match Begin(cfg, s, poll, script(0).row.before, script(0).row.commit)
    case (t, Started(_)) => OwnerFrom(OwnTurn(cfg), t, script, 0, fuel)
    case (t, Refused(e)) => Some(Owned(t, Failure(e), 0))
    case (_, NotYet(_)) => None
  }

  /** The owner of a ready session runs the session, its first admission included. */
  lemma OwnerRunIsSession(cfg: Config, s: Session, poll: Boundary, script: nat -> SessionRow, fuel: nat)
    requires s.phase.SessionReady? && s.flow.budget.attempts + fuel >= s.flow.budget.limits.maxAttempts && fuel > 0
    ensures OwnedAs(OwnerRun(cfg, s, poll, script, fuel), s, SessionFrom(cfg, s.flow, script, 0, 0))
  {
    SessionIteratorCounting(cfg);
    var row := script(0).row;
    var admitted := AdmitStep(cfg, s.flow, row.before, row.commit);
    if admitted.Go? {
      OwnerRunsSession(cfg, s.(flow := admitted.flow, phase := SessionActive), s.flow, script, 0, fuel);
    } else {
      assert SessionIterator(cfg)(s.flow, script(0)) == Last(admitted.flow, Failure(admitted.error), false);
    }
  }

  // --- Refinement ---------------------------------------------------------------------------------

  /**
   The polls of one wait correspond to the loop's wait: coherent samples, every poll but the last
   one early and uncancelled, and the last one ready or, for a cancelled wait, cancelled.
   */
  ghost predicate PollsMatch(b: Budget, due: Instant, polls: seq<Boundary>, wait: Wait) {
    && polls != []
    && Coherent(b, polls[0].now)
    && (forall i :: 0 < i < |polls| ==> Follows(polls[i - 1].now, polls[i].now))
    && (forall i :: 0 <= i < |polls| - 1 ==> !polls[i].cancelled && polls[i].now.at < due.at)
    && var last := polls[|polls| - 1];
       match wait
       case Elapsed => !last.cancelled && due.at <= last.now.at
       case WaitCancelled(now) => last == Boundary(now, true)
       case WaitTimerFailed(_) => false
  }

  lemma {:induction false} MatchedPolls(f: Flow, due: Instant, polls: seq<Boundary>, wait: Wait)
    requires PollsMatch(f.budget, due, polls, wait) && due.domain == f.budget.sampledAt.domain
    requires f.currentAttempt.None? && f.hardTimeout.None?
    ensures var last := polls[|polls| - 1].now;
            Coherent(f.budget, last) &&
            match wait
            case Elapsed => PollAll(f, due, polls) == PollReady(At(f, last))
            case WaitCancelled(now) =>
              PollAll(f, due, polls) ==
                PollStopped(BackoffCancelledStop(f, now).flow, BackoffCancelledStop(f, now).error)
            case WaitTimerFailed(_) => false
    decreases |polls|
  {
    if |polls| > 1 {
      MatchedPolls(At(f, polls[0].now), due, polls[1..], wait);
    } else {
      assert polls[1..] == [];
    }
  }

  /** The wait of a row, where it has one: polled like the loop waits, and the next row sampled no earlier. */
  ghost predicate WaitMatched(cfg: Config, f: Flow, s: SessionRow, next: Instant) {
    match AdmitStep(cfg, f, s.row.before, s.row.commit)
    case Stop(_, _) => true
    case Go(g, _) =>
      match Settle(cfg, g, s.row.operation, s.row.finished, s.row.failure)
      case Done(_, _) => true
      case Again(h, plan) =>
        && PollsMatch(h.budget, plan.deadline, s.polls, WaitOf(s.row.wait, plan))
        && (WaitOf(s.row.wait, plan).Elapsed? ==> Follows(s.polls[|s.polls| - 1].now, next))
  }

  /** Every wait of the loop's run is matched by the owner's polls. */
  ghost predicate Matched(cfg: Config, f: Flow, script: nat -> SessionRow, k: nat)
    decreases AttemptsLeft(f)
  {
    IterateCounts(cfg, f, script(k).row);
    && WaitMatched(cfg, f, script(k), script(k + 1).row.before.entry.now)
    && match Iterate(cfg, f, script(k).row)
       case Last(_, _, _) => true
       case Continue(g, _) => Matched(cfg, g, script, k + 1)
  }

  /** The last poll's sample leaves no mark on a later admission. */
  lemma AdmissionForgetsPolls(cfg: Config, f: Flow, polled: Instant, before: BeforeInputs, commit: Boundary)
    requires Coherent(f.budget, polled) && Follows(polled, before.entry.now)
    ensures AdmitStep(cfg, At(f, polled), before, commit) == AdmitStep(cfg, f, before, commit)
  {
    assert At(At(f, polled), before.entry.now) == At(f, before.entry.now);
    assert BeforeAttemptStep(cfg, At(f, polled), before) == BeforeAttemptStep(cfg, f, before);
  }

  /** One iteration: the same last step, or the same flow up to the last poll's sample. */
  lemma IterationSimulated(cfg: Config, f: Flow, g: Flow, s: SessionRow, next: Instant)
    requires Idle(cfg, f) && WaitMatched(cfg, f, s, next)
    requires AdmitStep(cfg, g, s.row.before, s.row.commit) == AdmitStep(cfg, f, s.row.before, s.row.commit)
    ensures match Iterate(cfg, f, s.row)
            case Last(h, t, called) => SessionIterate(cfg, g, s) == Last(h, t, called)
            case Continue(h, plan) =>
              && s.polls != []
              && var last := s.polls[|s.polls| - 1].now;
                 SessionIterate(cfg, g, s) == Continue(At(h, last), plan) && Coherent(h.budget, last)
                 && Follows(last, next)
  {
    AdmitKept(cfg, f, s.row.before, s.row.commit);
    var admitted := AdmitStep(cfg, f, s.row.before, s.row.commit);
    if admitted.Go? {
      SettleKept(cfg, admitted.flow, s.row.operation, s.row.finished, s.row.failure);
      var settled := Settle(cfg, admitted.flow, s.row.operation, s.row.finished, s.row.failure);
      if settled.Again? {
        MatchedPolls(settled.flow, settled.plan.deadline, s.polls, WaitOf(s.row.wait, settled.plan));
      }
    }
  }

  function RowsOf(script: nat -> SessionRow): nat -> Row { (k: nat) => script(k).row }

  lemma {:induction false} SessionSimulates(cfg: Config, f: Flow, g: Flow, script: nat -> SessionRow, k: nat,
      calls: nat)
    requires Idle(cfg, f) && Matched(cfg, f, script, k)
    requires g == f || (g == At(f, g.budget.sampledAt) && Coherent(f.budget, g.budget.sampledAt)
                        && Follows(g.budget.sampledAt, script(k).row.before.entry.now))
    ensures SessionFrom(cfg, g, script, k, calls) == LoopFrom(cfg, f, RowsOf(script), k, calls)
    decreases AttemptsLeft(f)
  {
    var s := script(k);
    IteratorCounting(cfg);
    SessionIteratorCounting(cfg);
    if g != f {
      AdmissionForgetsPolls(cfg, f, g.budget.sampledAt, s.row.before, s.row.commit);
    }
    IterationSimulated(cfg, f, g, s, script(k + 1).row.before.entry.now);
    IterateKept(cfg, f, s.row);
    IterateCounts(cfg, f, s.row);
    var i := Iterator(cfg)(f, RowsOf(script)(k));
    var j := SessionIterator(cfg)(g, s);
    assert i == Iterate(cfg, f, s.row) && j == SessionIterate(cfg, g, s);
    if i.Continue? {
      SessionSimulates(cfg, i.flow, j.flow, script, k + 1, calls + 1);
    }
  }

  /**
   Refinement: for any operation results, callback outcomes and cancellations, a session polled any
   number of times early ends like the loop, with the same flow (hence the same observer events and
   contexts), the same terminal result and the same operation calls.
   */
  lemma SessionMatchesLoop(cfg: Config, startedAt: Instant, script: nat -> SessionRow)
    requires ValidLimits(cfg.limits) && Matched(cfg, Start(cfg, startedAt), script, 0)
    ensures SessionFrom(cfg, Start(cfg, startedAt), script, 0, 0) ==
            LoopFrom(cfg, Start(cfg, startedAt), RowsOf(script), 0, 0)
  {
    StartIdle(cfg, startedAt);
    SessionSimulates(cfg, Start(cfg, startedAt), Start(cfg, startedAt), script, 0, 0);
  }

  /** The loop never gives up on its own run. */
  lemma LoopNeverAbandons(cfg: Config, f: Flow, script: nat -> Row)
    ensures !LoopFrom(cfg, f, script, 0, 0).terminal.Abandoned?
  {
    IteratorCounting(cfg);
    var inv, done := (g: Flow) => true, (row: Row, g: Flow, t: Terminal) => !t.Abandoned?;
    forall g: Flow, row: Row | inv(g) ensures Carried(Iterator(cfg)(g, row), row, inv, done) {
    }
    DriveKeeps(Iterator(cfg), f, script, 0, 0, inv, done);
  }

  /**
   The session matches the loop, end to end: an owner of a new session that calls nothing but its
   two operations, polling as often as it likes before each due instant, is left with the loop's
   flow (hence the same observer events and contexts), its terminal result and its operation
   calls, and with every completion observer notified exactly once after the last event.
   */
  lemma SessionBehavesLikeLoop(
      cfg: Config, startedAt: Instant, observers: nat, poll: Boundary, script: nat -> SessionRow, fuel: nat)
    requires ValidLimits(cfg.limits) && Matched(cfg, Start(cfg, startedAt), script, 0) && fuel >= cfg.limits.maxAttempts
    ensures var e := LoopFrom(cfg, Start(cfg, startedAt), RowsOf(script), 0, 0);
            var s := NewSession(cfg, startedAt, observers);
            && OwnerRun(cfg, s, poll, script, fuel) == Some(Owned(Ended(s, e.flow, e.terminal), e.terminal, e.calls))
            && Ended(s, e.flow, e.terminal).notified == Notifications(observers, e.terminal, |e.flow.trace|)
  {
    OwnerRunIsSession(cfg, NewSession(cfg, startedAt, observers), poll, script, fuel);
    SessionMatchesLoop(cfg, startedAt, script);
    LoopNeverAbandons(cfg, Start(cfg, startedAt), RowsOf(script));
  }
}
