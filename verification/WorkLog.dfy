/**
 What a run of the controller accounts for, read off its commands: every attempt runs from the
 sample of the commit that admitted it to the sample of the command that ended it.
 */
module WorkLog {
  import opened Options
  import opened Time
  import opened Accounting
  import opened FlowModel
  import opened FlowRuns
  import opened AdmissionTable
  import opened CompletionTable

  /** The admission sample of the attempt under way, and the intervals of the ended ones. */
  datatype Work = Work(running: Option<Instant>, done: seq<Interval>)

  /** The sample at which a command ends the running attempt. */
  function Completion(c: Command): Option<Instant> {
    match c
    case Succeed(now) => Some(now)
    case Fail(_, inputs) => Some(inputs.completion)
    case CancelAttempt(now) => Some(now)
    case BreakDown(_, _, now) => Some(now)
    case _ => None
  }

  /** The work after a command that led to the phase `reached`. */
  function WorkAfter(w: Work, c: Command, reached: Phase): Work {
    if c.Commit? && reached.Active? then Work(Some(c.commit.now), w.done)
    else if w.running.Some? && Completion(c).Some? && Follows(w.running.value, Completion(c).value)
    then Work(None, w.done + [Interval(w.running.value.at, Completion(c).value.at)])
    else w
  }

  function WorkOf(run: seq<State>, commands: seq<Command>, n: nat): Work
    requires n <= |commands| < |run|
  {
    if n == 0 then Work(None, []) else WorkAfter(WorkOf(run, commands, n - 1), commands[n - 1], run[n].phase)
  }

  function Recorded(s: State): Work { Work(s.flow.budget.active, s.flow.budget.completed) }

  lemma AdmissionRecords(cfg: Config, s: State, c: Command)
    requires StateInv(cfg, s) && Allowed(cfg, s, c) && (c.Before? || c.Prepare?)
    ensures var t := FlowRuns.Next(cfg, s, c); Recorded(t) == WorkAfter(Recorded(s), c, t.phase)
  {
    if c.Before? { BeforeDecides(cfg, s.flow, c.before); }
  }

  lemma CommitRecords(cfg: Config, s: State, b: Boundary)
    requires StateInv(cfg, s) && Allowed(cfg, s, Commit(b))
    ensures var t := FlowRuns.Next(cfg, s, Commit(b)); Recorded(t) == WorkAfter(Recorded(s), Commit(b), t.phase)
  {
    CommitDecides(cfg, s.flow, if s.phase.Prepared? then s.phase.timeout else None, b);
  }

  lemma CompletionRecords(cfg: Config, s: State, c: Command)
    requires StateInv(cfg, s) && Allowed(cfg, s, c) && (c.Succeed? || c.Fail? || c.CancelAttempt?)
    ensures var t := FlowRuns.Next(cfg, s, c); Recorded(t) == WorkAfter(Recorded(s), c, t.phase)
  {
    match c
    case Succeed(now) => SuccessDecides(s.flow, now);
    case Fail(failure, r) => FailureDecides(cfg, s.flow, failure, r);
    case CancelAttempt(now) => CancellationDecides(s.flow, now);
  }

  lemma BreakDownRecords(cfg: Config, s: State, c: Command)
    requires StateInv(cfg, s) && Allowed(cfg, s, c) && c.BreakDown?
    ensures var t := FlowRuns.Next(cfg, s, c); Recorded(t) == WorkAfter(Recorded(s), c, t.phase)
  {
    var f := if c.overlay then s.flow else ClearOverlay(s.flow);
    if f.budget.active.Some? {
      BreakdownDecides(f, c.infrastructure, c.now);
    } else {
      IdleBreakdownDecides(f, c.infrastructure, c.now);
    }
  }

  lemma WaitingRecords(cfg: Config, s: State, c: Command)
    requires StateInv(cfg, s) && Allowed(cfg, s, c) && (c.Poll? || c.CancelBackoff?)
    ensures var t := FlowRuns.Next(cfg, s, c); Recorded(t) == WorkAfter(Recorded(s), c, t.phase)
  {
  }

  lemma StepRecords(cfg: Config, s: State, c: Command, t: State)
    requires StateInv(cfg, s) && Allowed(cfg, s, c) && t == FlowRuns.Next(cfg, s, c)
    ensures Recorded(t) == WorkAfter(Recorded(s), c, t.phase)
  {
    match c
    case Before(_) => AdmissionRecords(cfg, s, c);
    case Prepare => AdmissionRecords(cfg, s, c);
    case Commit(b) => CommitRecords(cfg, s, b);
    case BreakDown(_, _, _) => BreakDownRecords(cfg, s, c);
    case Poll(_) => WaitingRecords(cfg, s, c);
    case CancelBackoff(_) => WaitingRecords(cfg, s, c);
    case _ => CompletionRecords(cfg, s, c);
  }

  ghost predicate RecordsLinked(run: seq<State>, commands: seq<Command>) {
    && |run| == |commands| + 1 && Recorded(run[0]) == Work(None, [])
    && forall i :: 0 <= i < |commands| ==>
         Recorded(run[i + 1]) == WorkAfter(Recorded(run[i]), commands[i], run[i + 1].phase)
  }

  lemma RunLinksRecords(cfg: Config, run: seq<State>, commands: seq<Command>)
    requires IsRun(cfg, run, commands)
    ensures RecordsLinked(run, commands)
  {
    forall i | 0 <= i < |commands|
      ensures Recorded(run[i + 1]) == WorkAfter(Recorded(run[i]), commands[i], run[i + 1].phase)
    {
      RunInv(cfg, run, commands, i);
      StepRecords(cfg, run[i], commands[i], run[i + 1]);
    }
  }

  lemma {:induction false} LinkedRecords(run: seq<State>, commands: seq<Command>, n: nat)
    requires RecordsLinked(run, commands) && n < |run|
    ensures Recorded(run[n]) == WorkOf(run, commands, n)
  {
    if n > 0 {
      LinkedRecords(run, commands, n - 1);
    }
  }

  /**
   In every state of every run the completed intervals are exactly those from a commit that
   admitted to the command that ended its attempt, and the operation time is their sum.
   */
  lemma RunRecordsWork(cfg: Config, run: seq<State>, commands: seq<Command>, n: nat)
    requires IsRun(cfg, run, commands) && n < |run|
    ensures var b, work := run[n].flow.budget, WorkOf(run, commands, n);
            b.active == work.running && b.completed == work.done && b.operationElapsed == TotalTime(work.done)
  {
    RunLinksRecords(cfg, run, commands);
    LinkedRecords(run, commands, n);
    RunConservesTime(cfg, run, commands, n);
  }
}
