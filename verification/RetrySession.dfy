/**
 The externally driven facade: one operation at a time, no waiting of its own.
 */
module RetrySession {
  import opened Options
  import opened Time
  import opened Accounting
  import opened Callbacks
  import opened FlowModel
  import opened FlowDeadlines
  import opened FlowRuns
  import opened FlowController
  import opened Driving
  import opened RetryLoop
  import opened RetryFacade
  import opened Completion

  datatype SessionPhase = SessionReady | SessionActive | SessionWaiting(due: Instant) | SessionFinished

  /** `ended` and `notified` are history: the terminal result and what the completion observers were told. */
  datatype Session = Session(
    flow: Flow, phase: SessionPhase, observers: nat, ended: Option<Terminal>, notified: seq<Notification>)

  datatype Admission = Started(ordinal: nat) | NotYet(due: Instant) | Refused(error: RetryError)

  datatype Answer = Completed(value: int, context: Context) | RetryAt(due: Instant) | FailedWith(error: RetryError)

  function NewSession(cfg: Config, startedAt: Instant, observers: nat): Session {
    Session(Start(cfg, startedAt), SessionReady, observers, None, [])
  }

  predicate MayBegin(s: Session) { s.phase.SessionReady? || s.phase.SessionWaiting? }

  /** The session ends: its observers are told the terminal result. */
  function Ended(s: Session, f: Flow, terminal: Terminal): Session {
    Session(f, SessionFinished, s.observers, Some(terminal),
            s.notified + Notifications(s.observers, terminal, |f.trace|))
  }

  /** The backoff gate of a waiting session; a ready one passes it without looking at the clock. */
  function Gate(s: Session, poll: Boundary): Step<bool> {
    if s.phase.SessionWaiting? then CheckBackoffStep(s.flow, poll, s.phase.due) else Go(s.flow, true)
  }

  function Begin(cfg: Config, s: Session, poll: Boundary, before: BeforeInputs, commit: Boundary)
      : (Session, Admission) {
    match Gate(s, poll)
    case Stop(f, e) => (Ended(s, f, Failure(e)), Refused(e))
    case Go(f, false) => (s.(flow := f), if s.phase.SessionWaiting? then NotYet(s.phase.due) else NotYet(poll.now))
    case Go(f, true) => BeginNow(cfg, s.(flow := f), before, commit)
  }

  /** Admission once the gate is passed. */
  function BeginNow(cfg: Config, s: Session, before: BeforeInputs, commit: Boundary): (Session, Admission) {
    match AdmitStep(cfg, s.flow, before, commit)
    case Stop(g, e) => (Ended(s, g, Failure(e)), Refused(e))
    case Go(g, _) => (s.(flow := g, phase := SessionActive), Started(g.budget.attempts))
  }

  /** What the owner is told about the outcome of its attempt. */
  function Answered(s: Session, settled: Followup): (Session, Answer)
    requires settled.Done? ==> !settled.terminal.Abandoned?
  {
    match settled
    case Again(f, plan) => (s.(flow := f, phase := SessionWaiting(plan.deadline)), RetryAt(plan.deadline))
    case Done(f, Success(value, context)) =>
      (Ended(s, f, Success(value, context)), Completed(value, context))
    case Done(f, Failure(e)) => (Ended(s, f, Failure(e)), FailedWith(e))
  }

  function Record(cfg: Config, s: Session, operation: Result<int, int>, finished: Instant, r: FailureInputs)
      : (Session, Answer)
    requires s.flow.budget.active.Some?
  {
    Answered(s, Settle(cfg, s.flow, operation, finished, r))
  }

  /**
   Exactly once: before the end nobody has been notified; at the end every observer has been, in
   registration order, with the terminal result, and after the last event of the trace.
   */
  ghost predicate NotifiedOnce(s: Session) {
    && (s.phase.SessionFinished? <==> s.ended.Some?)
    && s.notified == match s.ended
                     case None => []
                     case Some(t) => Notifications(s.observers, t, |s.flow.trace|)
  }

  /** What holds between any two calls, whatever the owner does. */
  ghost predicate SessionInv(cfg: Config, s: Session) {
    && NotifiedOnce(s)
    && (s.flow.budget.active.Some? && !s.phase.SessionFinished? <==> s.phase.SessionActive?)
    && (match s.phase
        case SessionReady => StateInv(cfg, State(s.flow, Ready)) && Idle(cfg, s.flow)
        case SessionActive => StateInv(cfg, State(s.flow, Active))
        case SessionWaiting(due) => WaitingInv(cfg, s.flow, Plan(due, s.flow.nextDelay == Some(0))) && Idle(cfg, s.flow)
        case SessionFinished => Concluded(cfg, s.flow, s.ended.value))
  }

  lemma GateKept(cfg: Config, s: Session, poll: Boundary)
    requires SessionInv(cfg, s) && MayBegin(s)
    ensures var g := Gate(s, poll);
            && Kept(cfg, g)
            && (g.Go? ==> Idle(cfg, g.flow) && SessionInv(cfg, s.(flow := g.flow)))
            && (g == Go(g.flow, true) <==>
                  s.phase.SessionReady?
                  || (Coherent(s.flow.budget, poll.now) && !poll.cancelled && s.phase.due.at <= poll.now.at))
  {
    if s.phase.SessionWaiting? {
      PolledKept(cfg, s.flow, poll, Plan(s.phase.due, s.flow.nextDelay == Some(0)));
    }
  }

  /** Beginning keeps the session sound, and never admits before the due instant or after a cancelled poll. */
  lemma BeginKept(cfg: Config, s: Session, poll: Boundary, before: BeforeInputs, commit: Boundary)
    requires SessionInv(cfg, s) && MayBegin(s)
    ensures var (t, a) := Begin(cfg, s, poll, before, commit);
            && SessionInv(cfg, t)
            && (a.Started? <==> t.phase.SessionActive?) && (a.Refused? <==> t.phase.SessionFinished?)
            && (a.NotYet? ==> t.phase == s.phase && s.phase == SessionWaiting(a.due))
            && (a.Started? ==> a.ordinal == s.flow.budget.attempts + 1 == Admissions(t.flow.trace))
            && (a.Started? && s.phase.SessionWaiting? ==> s.phase.due.at <= poll.now.at && !poll.cancelled)
            && (a.Refused? ==> Current(a.error.context, t.flow.budget))
  {
    GateKept(cfg, s, poll);
    var g := Gate(s, poll);
    if g.Go? && g.value {
      AdmitKept(cfg, g.flow, before, commit);
      AdmissionCounts(cfg, g.flow, before, commit);
    }
  }

  lemma RecordKept(cfg: Config, s: Session, operation: Result<int, int>, finished: Instant, r: FailureInputs)
    requires SessionInv(cfg, s) && s.phase.SessionActive?
    ensures var (t, a) := Record(cfg, s, operation, finished, r);
            && SessionInv(cfg, t)
            && (if a.RetryAt? then t.phase == SessionWaiting(a.due) else t.phase.SessionFinished?)
            && (a.RetryAt? ==> operation.Err? && t.flow.budget.sampledAt.at <= a.due.at)
            && (a.Completed? ==> operation == Ok(a.value) && a.context == Snapshot(t.flow))
            && (a.FailedWith? ==> Current(a.error.context, t.flow.budget))
  {
    SettleKept(cfg, s.flow, operation, finished, r);
    SettlingCounts(cfg, s.flow, operation, finished, r);
  }

  class RetrySession {
    const cfg: Config
    const controller: RetryFlowController
    const observers: CompletionObservers
    var phase: SessionPhase
    ghost var ended: Option<Terminal>

    ghost function Value(): Session
      reads this, controller, controller.state.budget, controller.state.backoff, observers
    {
      Session(controller.Value(), phase, |observers.outcomes|, ended, observers.log)
    }

    ghost function Repr(): set<object> { {this, observers} + controller.Repr() }

    ghost predicate Valid()
      reads this, controller, controller.state.budget, controller.state.backoff, observers
    {
      controller.Valid() && controller.state.cfg == cfg && SessionInv(cfg, Value())
    }

    /** A session has no hard timeouts. */
    constructor (startedAt: Instant, cfg: Config, outcomes: seq<CallbackOutcome>)
      requires ValidLimits(cfg.limits)
      ensures Valid() && fresh(Repr()) && this.cfg == Untimed(cfg) && observers.outcomes == outcomes
      ensures Value() == NewSession(this.cfg, startedAt, |outcomes|)
    {
      this.cfg := Untimed(cfg);
      controller := new RetryFlowController(startedAt, Untimed(cfg));
      observers := new CompletionObservers(outcomes);
      phase := SessionReady;
      ended := None;
      new;
      StartIdle(Untimed(cfg), startedAt);
    }

    /** `Valid` also carries the session invariant; the steps below need only the controller's consistency. */
    ghost predicate Wired()
      reads this, controller, controller.state.budget, controller.state.backoff
    {
      controller.Valid() && controller.state.cfg == cfg
    }

    method BeginAttempt(poll: Boundary, before: BeforeInputs, commit: Boundary)
        returns (admission: Admission, diagnostics: seq<CallbackFailure>)
      requires Valid() && MayBegin(Value())
      modifies Repr()
      ensures Valid()
      ensures (Value(), admission) == Begin(cfg, old(Value()), poll, before, commit)
      ensures diagnostics == if admission.Refused? then Diagnostics(observers.outcomes) else []
    {
      BeginKept(cfg, Value(), poll, before, commit);
      GateKept(cfg, Value(), poll);
      admission, diagnostics := PassGate(poll, before, commit);
    }

    method PassGate(poll: Boundary, before: BeforeInputs, commit: Boundary)
        returns (admission: Admission, diagnostics: seq<CallbackFailure>)
      requires Wired() && MayBegin(Value()) && controller.Value().budget.active.None?
      modifies Repr()
      ensures Wired()
      ensures (Value(), admission) == Begin(cfg, old(Value()), poll, before, commit)
      ensures diagnostics == if admission.Refused? then Diagnostics(observers.outcomes) else []
    {
      if phase.SessionWaiting? {
        var ready := controller.CheckBackoffReady(poll, phase.due);
        if ready.Err? {
          diagnostics := Finish(Failure(ready.error));
          return Refused(ready.error), diagnostics;
        }
        if !ready.value {
          return NotYet(phase.due), [];
        }
      }
      admission, diagnostics := Admit(before, commit);
    }

    method Admit(before: BeforeInputs, commit: Boundary)
        returns (admission: Admission, diagnostics: seq<CallbackFailure>)
      requires Wired() && controller.Value().budget.active.None?
      modifies Repr()
      ensures Wired()
      ensures (Value(), admission) == BeginNow(cfg, old(Value()), before, commit)
      ensures diagnostics == if admission.Refused? then Diagnostics(observers.outcomes) else []
    {
      ghost var s := Value();
      var admitted := TryAdmit(controller, before, commit);
      ghost var flow := controller.Value();
      assert BeginNow(cfg, s, before, commit) ==
               match admitted
               case Ok(_) => (s.(flow := flow, phase := SessionActive), Started(flow.budget.attempts))
               case Err(e) => (Ended(s, flow, Failure(e)), Refused(e));
      if admitted.Err? {
        diagnostics := Finish(Failure(admitted.error));
        return Refused(admitted.error), diagnostics;
      }
      phase := SessionActive;
      return Started(controller.state.budget.attempts), [];
    }

    method RecordResult(operation: Result<int, int>, finished: Instant, inputs: FailureInputs)
        returns (answer: Answer, diagnostics: seq<CallbackFailure>)
      requires Valid() && phase.SessionActive?
      modifies Repr()
      ensures Valid()
      ensures (Value(), answer) == Record(cfg, old(Value()), operation, finished, inputs)
      ensures diagnostics == if answer.RetryAt? then [] else Diagnostics(observers.outcomes)
    {
      RecordKept(cfg, Value(), operation, finished, inputs);
      answer, diagnostics := SettleResult(operation, finished, inputs);
    }

    method SettleResult(operation: Result<int, int>, finished: Instant, inputs: FailureInputs)
        returns (answer: Answer, diagnostics: seq<CallbackFailure>)
      requires Wired() && controller.Value().budget.active.Some?
      modifies Repr()
      ensures Wired()
      ensures (Value(), answer) == Record(cfg, old(Value()), operation, finished, inputs)
      ensures diagnostics == if answer.RetryAt? then [] else Diagnostics(observers.outcomes)
    {
      ghost var s := Value();
      var concluded := Conclude(controller, operation, finished, inputs);
      ghost var flow := controller.Value();
      assert Settle(cfg, s.flow, operation, finished, inputs) ==
               match concluded case Ok(plan) => Again(flow, plan) case Err(t) => Done(flow, t);
      assert Value() == s.(flow := flow);
      answer, diagnostics := Deliver(concluded, s);
    }

    /** Tells the owner, and everyone else when the session ends; `s` is the session before. */
    method Deliver(concluded: Result<Plan, Terminal>, ghost s: Session)
        returns (answer: Answer, diagnostics: seq<CallbackFailure>)
      requires Wired() && Value() == s.(flow := controller.Value())
      requires concluded.Err? ==> !concluded.error.Abandoned?
      modifies this, observers
      ensures Wired()
      ensures (Value(), answer) ==
                Answered(s, match concluded
                            case Ok(plan) => Again(controller.Value(), plan)
                            case Err(t) => Done(controller.Value(), t))
      ensures diagnostics == if answer.RetryAt? then [] else Diagnostics(observers.outcomes)
    {
      match concluded {
        case Ok(plan) =>
          phase := SessionWaiting(plan.deadline);
          return RetryAt(plan.deadline), [];
        case Err(Success(value, context)) =>
          diagnostics := Finish(concluded.error);
          answer := Completed(value, context);
        case Err(Failure(e)) =>
          diagnostics := Finish(concluded.error);
          answer := FailedWith(e);
      }
    }

    /** Ends the session and notifies every completion observer. */
    method Finish(terminal: Terminal) returns (diagnostics: seq<CallbackFailure>)
      requires Wired()
      modifies this, observers
      ensures Wired() && Value() == Ended(old(Value()), old(controller.Value()), terminal)
      ensures diagnostics == Diagnostics(observers.outcomes)
    {
      phase := SessionFinished;
      ended := Some(terminal);
      var outcome := Completion.Complete(terminal, observers, |controller.Value().trace|);
      diagnostics := outcome.diagnostics;
    }
  }
}
