/**
 The event loop of the calling thread and its cleanup as the sequential methods they are, and
 the proof that the calling thread of every interleaving computes what these methods compute
 from what it read.
 */
module WorkerWait {
  import opened Options
  import opened WorkerProtocol

  /** What one turn of the loop reads; no event means that the channel is closed. */
  datatype Round = Round(cancelled: bool, timer: Option<bool>, event: Option<Event>)

  /** What one wait of the cleanup ends with. */
  datatype Arrival = Arrives(event: Event) | Expires | Closes

  function Turn(k: Caller, r: Round): Caller {
    if !k.stage.CheckingCancellation? then k
    else
      var looked := Looked(k, r.cancelled);
      if looked.stage.InGrace? then looked
      else
        var polled := Polled(looked, r.timer);
        if polled.stage.InGrace? then polled
        else
          var examined := Examined(polled);
          if examined.stage.Done? then examined
          else if r.event.Some? then Received(examined, r.event.value)
          else At(examined, Done(ChannelClosed))
  }

  function Turns(k: Caller, rounds: seq<Round>): Caller {
    if rounds == [] then k else Turn(Turns(k, rounds[..|rounds| - 1]), rounds[|rounds| - 1])
  }

  function Settle(k: Caller, a: Arrival): Caller {
    if !k.stage.InGrace? || k.joined then k
    else match a
      case Arrives(e) => Discarded(k, e)
      case Expires => At(k, Done(StillRunning(k.stage.trigger)))
      case Closes => At(k, Done(ChannelClosed))
  }

  function Settled(k: Caller, arrivals: seq<Arrival>): Caller {
    if arrivals == [] then k else Settle(Settled(k, arrivals[..|arrivals| - 1]), arrivals[|arrivals| - 1])
  }

  /** Exit that was proven before cleanup needs no further event. */
  function Close(k: Caller): Caller {
    if k.stage.InGrace? && k.joined then At(k, Done(AfterExit(k.stage.trigger))) else k
  }

  /** Where the calling thread is after these rounds and, once it cleans up, these arrivals. */
  function Waited(k: Caller, rounds: seq<Round>, arrivals: seq<Arrival>): Caller {
    Close(Settled(Turns(k, rounds), arrivals))
  }

  function OutcomeOf(k: Caller): Option<Outcome> { if k.stage.Done? then Some(k.stage.outcome) else None }

  /** A turn that is neither cancelled nor timed out looks at what it has, and then takes an event. */
  function Calm(base: Caller): Caller { Examined(Polled(Looked(base, false), None)) }

  lemma {:induction false} TurnsOver(k: Caller, rounds: seq<Round>, i: nat)
    requires i <= |rounds| && !Turns(k, rounds[..i]).stage.CheckingCancellation?
    ensures Turns(k, rounds) == Turns(k, rounds[..i])
  {
    if i == |rounds| {
      assert rounds[..i] == rounds;
    } else {
      assert rounds[..|rounds| - 1][..i] == rounds[..i];
      TurnsOver(k, rounds[..|rounds| - 1], i);
    }
  }

  lemma {:induction false} SettledOver(k: Caller, arrivals: seq<Arrival>, i: nat)
    requires i <= |arrivals| && (!Settled(k, arrivals[..i]).stage.InGrace? || Settled(k, arrivals[..i]).joined)
    ensures Settled(k, arrivals) == Settled(k, arrivals[..i])
  {
    if i == |arrivals| {
      assert arrivals[..i] == arrivals;
    } else {
      assert arrivals[..|arrivals| - 1][..i] == arrivals[..i];
      SettledOver(k, arrivals[..|arrivals| - 1], i);
    }
  }

  // --- The methods ---------------------------------------------------------------------------------------

  /** Waits for proof of exit only; true is proof, false is expiry, an error is a closed channel. */
  method ObserveWorkerExit(arrivals: seq<Arrival>, joined: bool, ghost k: Caller) returns (r: Option<Result<bool, ()>>)
    requires k.stage.InGrace? && k.joined == joined
    ensures OutcomeOf(Close(Settled(k, arrivals))) ==
              match r
              case None => None
              case Some(Ok(proven)) =>
                Some(if proven then AfterExit(k.stage.trigger) else StillRunning(k.stage.trigger))
              case Some(Err(_)) => Some(ChannelClosed)
  {
    if joined {
      assert arrivals[..0] == [];
      SettledOver(k, arrivals, 0);
      return Some(Ok(true));
    }
    var i := 0;
    while i < |arrivals|
      invariant i <= |arrivals|
      invariant var at := Settled(k, arrivals[..i]); at.stage == k.stage && !at.joined
    {
      assert arrivals[..i + 1][..i] == arrivals[..i];
      match arrivals[i] {
        case Expires =>
          SettledOver(k, arrivals, i + 1);
          return Some(Ok(false));
        case Closes =>
          SettledOver(k, arrivals, i + 1);
          return Some(Err(()));
        case Arrives(event) =>
          if event.Joined? {
            SettledOver(k, arrivals, i + 1);
            return Some(Ok(true));
          }
      }
      i := i + 1;
    }
    assert arrivals[..i] == arrivals;
    return None;
  }

  /** Cancels the attempt's token and waits for the worker to leave. */
  method StopWorker(arrivals: seq<Arrival>, trigger: Trigger, joined: bool, ghost k: Caller)
      returns (o: Option<Outcome>)
    requires k.stage == InGrace(trigger) && k.joined == joined
    ensures o == OutcomeOf(Close(Settled(k, arrivals)))
  {
    var r := ObserveWorkerExit(arrivals, joined, k);
    match r {
      case None => o := None;
      case Some(Ok(proven)) => o := Some(if proven then AfterExit(trigger) else StillRunning(trigger));
      case Some(Err(_)) => o := Some(ChannelClosed);
    }
  }

  /** What the loop remembers of one event; a panic found at the join replaces the result. */
  method Absorb(event: Event, completed: Option<AttemptResult>, joined: bool, ghost k: Caller)
      returns (kept: Option<AttemptResult>, exited: bool)
    requires k.completed == completed && k.joined == joined
    ensures kept == Received(k, event).completed && exited == Received(k, event).joined
  {
    kept, exited := completed, joined;
    match event {
      case Completed(result) => kept := Some(result);
      case Joined(panicked) =>
        exited := true;
        kept := if panicked then Some(Panicked) else completed;
      case Wake =>
    }
  }

  /** How one turn leaves the loop, if it does. */
  datatype TurnEnd = GoesOn | Stops(trigger: Trigger) | Ends(outcome: Outcome)

  /** One turn of the loop: cancellation, then the timer, then what has been received, then the next event. */
  method TakeTurn(r: Round, completed: Option<AttemptResult>, joined: bool, ghost k: Caller)
      returns (end: TurnEnd, kept: Option<AttemptResult>, exited: bool)
    requires k.stage.CheckingCancellation? && k.completed == completed && k.joined == joined
    ensures Turn(k, r).stage == match end
                                case GoesOn => CheckingCancellation
                                case Stops(trigger) => InGrace(trigger)
                                case Ends(o) => Done(o)
    ensures kept == Turn(k, r).completed && exited == Turn(k, r).joined
  {
    kept, exited := completed, joined;
    if r.cancelled {
      return Stops(Cancellation), kept, exited;
    }
    if r.timer.Some? {
      return Stops(if r.timer.value then Timeout else TimerFailure), kept, exited;
    }
    if joined && completed.Some? {
      return Ends(CompletedWith(completed.value)), kept, exited;
    }
    match r.event {
      case Some(event) =>
        kept, exited := Absorb(event, completed, joined, Calm(k));
        return GoesOn, kept, exited;
      case None =>
        return Ends(ChannelClosed), kept, exited;
    }
  }

  /** The loop; None means that it has not returned after all the given rounds and arrivals. */
  method WaitForWorker(rounds: seq<Round>, arrivals: seq<Arrival>, ghost start: Caller) returns (o: Option<Outcome>)
    requires start.stage.CheckingCancellation? && start.completed.None? && !start.joined
    ensures o == OutcomeOf(Waited(start, rounds, arrivals))
  {
    var completed: Option<AttemptResult>, joined := None, false;
    ghost var k := start;
    var i := 0;
    while i < |rounds|
      invariant i <= |rounds| && k == Turns(start, rounds[..i])
      invariant k.stage.CheckingCancellation? && k.completed == completed && k.joined == joined
    {
      assert rounds[..i + 1][..i] == rounds[..i];
      var end;
      end, completed, joined := TakeTurn(rounds[i], completed, joined, k);
      k := Turns(start, rounds[..i + 1]);
      i := i + 1;
      if !end.GoesOn? {
        TurnsOver(start, rounds, i);
        if end.Stops? {
          o := StopWorker(arrivals, end.trigger, joined, k);
        } else {
          EndedStays(k, arrivals);
          o := Some(end.outcome);
        }
        return;
      }
    }
    assert rounds[..i] == rounds;
    EndedStays(k, arrivals);
    return None;
  }

  lemma EndedStays(k: Caller, arrivals: seq<Arrival>)
    requires !k.stage.InGrace?
    ensures Close(Settled(k, arrivals)) == k
  {
    assert arrivals[..0] == [];
    SettledOver(k, arrivals, 0);
  }

  // --- Every interleaving runs the methods ----------------------------------------------------------------

  predicate Looping(m: Stage) { m.CheckingCancellation? || m.PollingTimer? || m.CheckingDone? || m.Receiving? }

  /** The turn under way: nothing has stopped it so far. */
  function UnderWay(base: Caller, m: Stage): Caller {
    if m.PollingTimer? then Looked(base, false)
    else if m.CheckingDone? then Polled(Looked(base, false), None)
    else if m.Receiving? then Examined(Polled(Looked(base, false), None))
    else base
  }

  /** The calling thread, entered into its loop as `start`, has read these rounds and arrivals so far. */
  ghost predicate Explained(start: Caller, k: Caller, rounds: seq<Round>, arrivals: seq<Arrival>) {
    if Looping(k.stage) then
      && Turns(start, rounds).stage.CheckingCancellation?
      && k == UnderWay(Turns(start, rounds), k.stage)
      && arrivals == []
    else
      k == Settled(Turns(start, rounds), arrivals) || k == Waited(start, rounds, arrivals)
  }

  lemma AnotherTurn(start: Caller, rounds: seq<Round>, r: Round)
    ensures Turns(start, rounds + [r]) == Turn(Turns(start, rounds), r)
  {
    assert (rounds + [r])[..|rounds|] == rounds;
  }

  lemma AnotherArrival(k: Caller, arrivals: seq<Arrival>, a: Arrival)
    ensures Settled(k, arrivals + [a]) == Settle(Settled(k, arrivals), a)
  {
    assert (arrivals + [a])[..|arrivals|] == arrivals;
  }

  lemma LookExplained(start: Caller, k: Caller, rounds: seq<Round>, stop: bool) returns (more: seq<Round>)
    requires k.stage.CheckingCancellation? && Explained(start, k, rounds, [])
    ensures Explained(start, Looked(k, stop), more, [])
  {
    more := rounds;
    if stop {
      more := rounds + [Round(true, None, None)];
      AnotherTurn(start, rounds, Round(true, None, None));
    }
  }

  lemma PollExplained(start: Caller, k: Caller, rounds: seq<Round>, fired: Option<bool>) returns (more: seq<Round>)
    requires k.stage.PollingTimer? && Explained(start, k, rounds, [])
    ensures Explained(start, Polled(k, fired), more, [])
  {
    more := rounds;
    if fired.Some? {
      more := rounds + [Round(false, fired, None)];
      AnotherTurn(start, rounds, Round(false, fired, None));
    }
  }

  lemma CalmTurn(base: Caller, event: Option<Event>)
    requires base.stage.CheckingCancellation?
    ensures Turn(base, Round(false, None, event)) ==
              if Calm(base).stage.Done? then Calm(base)
              else if event.Some? then Received(Calm(base), event.value)
              else At(Calm(base), Done(ChannelClosed))
  {
  }

  lemma DoneExplained(start: Caller, k: Caller, rounds: seq<Round>) returns (more: seq<Round>)
    requires k.stage.CheckingDone? && Explained(start, k, rounds, [])
    ensures Explained(start, Examined(k), more, [])
  {
    more := rounds;
    if Examined(k).stage.Done? {
      more := rounds + [Round(false, None, None)];
      AnotherTurn(start, rounds, Round(false, None, None));
      CalmTurn(Turns(start, rounds), None);
    }
  }

  lemma EventExplained(start: Caller, k: Caller, rounds: seq<Round>, event: Option<Event>) returns (more: seq<Round>)
    requires k.stage.Receiving? && Explained(start, k, rounds, [])
    ensures Explained(start, if event.Some? then Received(k, event.value) else At(k, Done(ChannelClosed)), more, [])
  {
    more := rounds + [Round(false, None, event)];
    AnotherTurn(start, rounds, Round(false, None, event));
    CalmTurn(Turns(start, rounds), event);
  }

  lemma LoopExplained(c: Setup, s: System, step: WaitStep, start: Caller, rounds: seq<Round>) returns (more: seq<Round>)
    requires LoopEnabled(s, step) && Explained(start, s.caller, rounds, [])
    ensures Explained(start, LoopNext(c, s, step).caller, more, [])
  {
    match step
    case CheckCancellation => more := LookExplained(start, s.caller, rounds, c.cancellable && s.sources.cancelled);
    case PollTimer => more := PollExplained(start, s.caller, rounds, Answer(s.sources.timer));
    case CheckDone => more := DoneExplained(start, s.caller, rounds);
    case Receive => more := EventExplained(start, s.caller, rounds, Some(s.queue[0]));
    case ReceiveClosed => more := EventExplained(start, s.caller, rounds, None);
  }

  lemma CleanupExplained(c: Setup, s: System, step: GraceStep, start: Caller, rounds: seq<Round>,
      arrivals: seq<Arrival>)
      returns (more: seq<Arrival>)
    requires CleanupEnabled(c, s, step) && Explained(start, s.caller, rounds, arrivals)
    ensures Explained(start, CleanupNext(c, s, step).caller, rounds, more)
  {
    more := arrivals;
    var k := Turns(start, rounds);
    match step
    case GraceJoined =>
    case GraceReceive =>
      more := arrivals + [Arrives(s.queue[0])];
      AnotherArrival(k, arrivals, Arrives(s.queue[0]));
    case GraceExpire =>
      more := arrivals + [Expires];
      AnotherArrival(k, arrivals, Expires);
    case GraceClosed =>
      more := arrivals + [Closes];
      AnotherArrival(k, arrivals, Closes);
  }

  /** Worker, reaper and sources never touch the calling thread. */
  lemma OthersLeaveCaller(c: Setup, s: System, step: Step)
    requires Enabled(c, s, step) && (step.ByThread? || step.BySource?)
    ensures Next(c, s, step).caller == s.caller
  {
  }

  lemma StepExplained(c: Setup, s: System, step: Step, start: Caller, rounds: seq<Round>, arrivals: seq<Arrival>)
      returns (moreRounds: seq<Round>, moreArrivals: seq<Arrival>)
    requires Enabled(c, s, step) && !step.BySetup? && Explained(start, s.caller, rounds, arrivals)
    ensures Explained(start, Next(c, s, step).caller, moreRounds, moreArrivals)
  {
    moreRounds, moreArrivals := rounds, arrivals;
    match step
    case ByLoop(m) => moreRounds := LoopExplained(c, s, m, start, rounds);
    case ByCleanup(m) => moreArrivals := CleanupExplained(c, s, m, start, rounds, arrivals);
    case _ => OthersLeaveCaller(c, s, step);
  }

  /** Once the loop is entered the calling thread takes no setup step again. */
  predicate Entered(m: Stage) { Looping(m) || m.InGrace? || m.Done? }

  lemma StaysEntered(c: Setup, s: System, step: Step)
    requires Enabled(c, s, step) && Entered(s.caller.stage)
    ensures !step.BySetup? && Entered(Next(c, s, step).caller.stage)
  {
  }

  lemma NextExplained(c: Setup, run: seq<System>, steps: seq<Step>, k: nat, start: Caller, rounds: seq<Round>,
      arrivals: seq<Arrival>)
      returns (moreRounds: seq<Round>, moreArrivals: seq<Arrival>)
    requires IsRun(c, run, steps) && k < |steps| && Explained(start, run[k].caller, rounds, arrivals)
             && Entered(run[k].caller.stage)
    ensures Explained(start, run[k + 1].caller, moreRounds, moreArrivals) && Entered(run[k + 1].caller.stage)
  {
    StaysEntered(c, run[k], steps[k]);
    moreRounds, moreArrivals := StepExplained(c, run[k], steps[k], start, rounds, arrivals);
  }

  lemma {:induction false} RunExplained(c: Setup, run: seq<System>, steps: seq<Step>, i: nat, j: nat)
      returns (rounds: seq<Round>, arrivals: seq<Arrival>)
    requires IsRun(c, run, steps) && i <= j < |run| && run[i].caller.stage.CheckingCancellation?
    ensures Explained(run[i].caller, run[j].caller, rounds, arrivals) && Entered(run[j].caller.stage)
  {
    if i == j {
      rounds, arrivals := [], [];
    } else {
      rounds, arrivals := RunExplained(c, run, steps, i, j - 1);
      rounds, arrivals := NextExplained(c, run, steps, j - 1, run[i].caller, rounds, arrivals);
    }
  }

  /**
   Whatever the interleaving, the outcome of an admitted attempt is the one `WaitForWorker`
   returns for the flags, timer answers and events that the calling thread happened to read.
   */
  lemma InterleavingsRunTheLoop(c: Setup, run: seq<System>, steps: seq<Step>, i: nat, j: nat)
      returns (rounds: seq<Round>, arrivals: seq<Arrival>)
    requires IsRun(c, run, steps) && i <= j < |run|
    requires run[i].caller.stage.CheckingCancellation? && run[j].caller.stage.Done?
    ensures OutcomeOf(Waited(run[i].caller, rounds, arrivals)) == Some(run[j].caller.stage.outcome)
  {
    rounds, arrivals := RunExplained(c, run, steps, i, j);
  }
}
