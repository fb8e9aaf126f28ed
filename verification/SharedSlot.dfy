/**
 The success-value slot shared by all attempts of a worker flow.

 A flow is any number of attempts, each with its own worker, reaper and event queue, and one
 slot that every operation of every attempt writes to. The calling thread starts attempts one
 after the other; the threads of all of them, old ones included, take their steps in any order.
 When and whether the calling thread retries, gives up or ends the flow is left open here.
 */
module SharedSlot {
  import opened Options
  import opened WorkerProtocol
  import opened WorkerSafety

  /** A value in the slot, with the attempt whose operation returned it. */
  datatype Tagged = Tagged(attempt: nat, value: int)

  /** The calling thread; `taken` is the value a successful flow returned. */
  datatype Main = Between | Attempting | Returned | Ended(taken: Option<Tagged>) | Panicked

  datatype World = World(attempts: seq<System>, slot: Option<Tagged>, main: Main)

  datatype Move =
    | StartNext
    | ByAttempt(attempt: nat, step: Step)
    | Conclude
    | Retry
    | Take
    | Finish

  function Empty(): World { World([], None, Between) }

  /** The attempt has returned to the calling thread. */
  predicate HasReturned(w: World) { |w.attempts| > 0 && w.attempts[|w.attempts| - 1].caller.stage.Done? }

  function LastOutcome(w: World): Outcome
    requires HasReturned(w)
  {
    w.attempts[|w.attempts| - 1].caller.stage.outcome
  }

  /** Outcomes after which the calling thread discards what the attempt left in the slot. */
  predicate Discards(o: Outcome) { (o.CompletedWith? && !o.result.Succeeded?) || o.Stopped? || o.TimerFailed? }

  /** Outcomes that may be followed by another attempt. */
  predicate MayRetry(o: Outcome) {
    (o.CompletedWith? && !o.result.Succeeded?) || (o.Stopped? && !o.trigger.Cancellation?)
  }

  predicate Enabled(c: Setup, w: World, m: Move) {
    match m
    case StartNext => w.main.Between?
    case ByAttempt(k, step) => k < |w.attempts| && WorkerProtocol.Enabled(c, w.attempts[k], step)
    case Conclude => w.main.Attempting? && HasReturned(w)
    case Retry => w.main.Returned? && HasReturned(w) && MayRetry(LastOutcome(w))
    case Take => w.main.Returned? && HasReturned(w) && LastOutcome(w) == CompletedWith(Succeeded)
    case Finish => w.main.Between? || w.main.Returned?
  }

  /** The value that a step of an attempt writes to the slot. */
  function Written(k: nat, step: Step, slot: Option<Tagged>): Option<Tagged> {
    if step.ByThread? && step.thread.OperationEnds? && step.thread.end.Returns?
    then Some(Tagged(k, step.thread.end.value))
    else slot
  }

  function Next(c: Setup, w: World, m: Move): World
    requires Enabled(c, w, m)
  {
    match m
    case StartNext => w.(attempts := w.attempts + [Initial(c)], main := Attempting)
    case ByAttempt(k, step) =>
      w.(attempts := w.attempts[k := WorkerProtocol.Next(c, w.attempts[k], step)], slot := Written(k, step, w.slot))
    case Conclude => w.(slot := if Discards(LastOutcome(w)) then None else w.slot, main := Returned)
    case Retry => w.(main := Between)
    case Take => if w.slot.Some? then w.(slot := None, main := Ended(w.slot)) else w.(main := Main.Panicked)
    case Finish => w.(main := Ended(None))
  }

  ghost predicate IsRun(c: Setup, run: seq<World>, moves: seq<Move>) {
    && |run| == |moves| + 1
    && run[0] == Empty()
    && forall i :: 0 <= i < |moves| ==> Enabled(c, run[i], moves[i]) && run[i + 1] == Next(c, run[i], moves[i])
  }

  // --- One attempt among others ------------------------------------------------------------------------

  /** The attempt has returned and no thread of it can enter the operation or write any more. */
  predicate Over(s: System) { s.caller.stage.Done? && NoWorkerLeft(s.caller.stage.outcome) }

  /** What the attempt itself has written. */
  function Stored(k: nat, s: System): Option<Tagged> {
    if s.threads.stored.Some? then Some(Tagged(k, s.threads.stored.value)) else None
  }

  lemma InitialInv(c: Setup)
    ensures WorkerSafety.Inv(c, Initial(c))
  {
  }

  /** A step of an attempt that is over writes nothing and leaves it over. */
  lemma OverStaysOver(c: Setup, s: System, step: Step, k: nat, slot: Option<Tagged>)
    requires WorkerSafety.Inv(c, s) && WorkerProtocol.Enabled(c, s, step) && Over(s)
    ensures Over(WorkerProtocol.Next(c, s, step)) && Written(k, step, slot) == slot
  {
    QuietStep(c, s, step);
  }

  /** A step of an attempt changes the slot exactly as it changes what the attempt has written. */
  lemma StoredFollows(c: Setup, s: System, step: Step, k: nat)
    requires WorkerSafety.Inv(c, s) && WorkerProtocol.Enabled(c, s, step)
    ensures Stored(k, WorkerProtocol.Next(c, s, step)) == Written(k, step, Stored(k, s))
  {
  }

  /** An attempt that has returned stays returned, with its outcome. */
  lemma ReturnIsFinal(c: Setup, s: System, step: Step)
    requires WorkerProtocol.Enabled(c, s, step) && s.caller.stage.Done?
    ensures WorkerProtocol.Next(c, s, step).caller.stage == s.caller.stage
  {
  }

  lemma DiscardedIsOver(c: Setup, s: System)
    requires WorkerSafety.Inv(c, s) && s.caller.stage.Done?
    ensures Discards(s.caller.stage.outcome) ==> Over(s)
    ensures s.caller.stage.outcome == CompletedWith(Succeeded) ==>
             Over(s) && s.threads.stored.Some? && s.caller.admitted
  {
  }

  lemma OpeningIsUnwritten(c: Setup, s: System)
    requires WorkerSafety.Inv(c, s) && WorkerProtocol.Enabled(c, s, BySetup(OpenGate))
    ensures s.threads.stored.None? && !s.caller.stage.Done?
  {
  }

  // --- Invariant ------------------------------------------------------------------------------------------

  ghost predicate Sound(c: Setup, attempts: seq<System>) {
    forall k :: 0 <= k < |attempts| ==> WorkerSafety.Inv(c, attempts[k])
  }

  /** The first attempts are over. */
  ghost predicate FirstOver(attempts: seq<System>, n: nat) {
    forall k :: 0 <= k < n <= |attempts| ==> Over(attempts[k])
  }

  /** The slot holds what the last attempt has written, and is empty between attempts. */
  ghost predicate SlotInv(w: World) {
    var n := |w.attempts|;
    match w.main
    case Between => w.slot.None? && FirstOver(w.attempts, n)
    case Attempting => n > 0 && FirstOver(w.attempts, n - 1) && w.slot == Stored(n - 1, w.attempts[n - 1])
    case Returned =>
      && HasReturned(w) && FirstOver(w.attempts, n - 1)
      && w.slot == (if Discards(LastOutcome(w)) then None else Stored(n - 1, w.attempts[n - 1]))
    case Ended(taken) =>
      taken.Some? ==> n > 0 && FirstOver(w.attempts, n) && TakenFrom(taken.value, n - 1, w.attempts[n - 1])
    case Panicked => false
  }

  /** The taken value is the one this admitted, successful attempt stored. */
  predicate TakenFrom(t: Tagged, k: nat, s: System) {
    && Some(t) == Stored(k, s) && s.caller.admitted
    && s.caller.stage == Done(CompletedWith(Succeeded))
  }

  /** Between and after attempts, every attempt has returned. */
  ghost predicate ReturnInv(w: World) {
    !w.main.Attempting? ==> forall k :: 0 <= k < |w.attempts| ==> w.attempts[k].caller.stage.Done?
  }

  ghost predicate WorldInv(c: Setup, w: World) { Sound(c, w.attempts) && SlotInv(w) && ReturnInv(w) }

  lemma SoundStep(c: Setup, w: World, m: Move)
    requires Sound(c, w.attempts) && Enabled(c, w, m)
    ensures Sound(c, Next(c, w, m).attempts)
  {
    match m
    case StartNext => InitialInv(c);
    case ByAttempt(k, step) => InvStep(c, w.attempts[k], step);
    case _ =>
  }

  lemma OverKeepsCaller(c: Setup, s: System, step: Step)
    requires WorkerSafety.Inv(c, s) && WorkerProtocol.Enabled(c, s, step) && Over(s)
    ensures var n := WorkerProtocol.Next(c, s, step); n.caller == s.caller && n.threads.stored == s.threads.stored
  {
    QuietStep(c, s, step);
  }

  /** An attempt that is over can be replaced by what it has become since. */
  lemma ReplacedOver(w: World, k: nat, s: System)
    requires SlotInv(w) && k < |w.attempts| && Over(w.attempts[k]) && Over(s)
    requires s.caller == w.attempts[k].caller && s.threads.stored == w.attempts[k].threads.stored
    ensures SlotInv(w.(attempts := w.attempts[k := s]))
  {
  }

  /** A step of an attempt that is not the last one, or of one that is over. */
  lemma OldAttemptStep(c: Setup, w: World, k: nat, step: Step)
    requires WorldInv(c, w) && Enabled(c, w, ByAttempt(k, step)) && Over(w.attempts[k])
    ensures SlotInv(Next(c, w, ByAttempt(k, step)))
  {
    var s := w.attempts[k];
    OverStaysOver(c, s, step, k, w.slot);
    OverKeepsCaller(c, s, step);
    ReplacedOver(w, k, WorkerProtocol.Next(c, s, step));
  }

  /** A step of the attempt under way, or of one that was given up. */
  lemma LastAttemptStep(c: Setup, w: World, k: nat, step: Step)
    requires WorldInv(c, w) && Enabled(c, w, ByAttempt(k, step)) && !Over(w.attempts[k])
    ensures SlotInv(Next(c, w, ByAttempt(k, step)))
  {
    var s := w.attempts[k];
    StoredFollows(c, s, step, k);
    if s.caller.stage.Done? {
      ReturnIsFinal(c, s, step);
      DiscardedIsOver(c, s);
    }
  }

  lemma StartStep(c: Setup, w: World)
    requires SlotInv(w) && w.main.Between?
    ensures SlotInv(Next(c, w, StartNext))
  {
  }

  lemma ConcludeStep(c: Setup, w: World)
    requires SlotInv(w) && w.main.Attempting? && HasReturned(w)
    ensures SlotInv(Next(c, w, Conclude))
  {
  }

  lemma RetryStep(c: Setup, w: World)
    requires SlotInv(w) && Enabled(c, w, Retry) && (Discards(LastOutcome(w)) ==> Over(w.attempts[|w.attempts| - 1]))
    ensures SlotInv(Next(c, w, Retry))
  {
  }

  lemma TakeStep(c: Setup, w: World)
    requires WorldInv(c, w) && Enabled(c, w, Take)
    ensures SlotInv(Next(c, w, Take))
  {
    DiscardedIsOver(c, w.attempts[|w.attempts| - 1]);
  }

  lemma MainStep(c: Setup, w: World, m: Move)
    requires WorldInv(c, w) && Enabled(c, w, m) && !m.ByAttempt?
    ensures SlotInv(Next(c, w, m))
  {
    match m
    case StartNext => StartStep(c, w);
    case Conclude => ConcludeStep(c, w);
    case Retry =>
      DiscardedIsOver(c, w.attempts[|w.attempts| - 1]);
      RetryStep(c, w);
    case Take => TakeStep(c, w);
    case Finish =>
  }

  lemma ReturnStep(c: Setup, w: World, m: Move)
    requires WorldInv(c, w) && Enabled(c, w, m)
    ensures ReturnInv(Next(c, w, m))
  {
    if m.ByAttempt? && w.attempts[m.attempt].caller.stage.Done? {
      ReturnIsFinal(c, w.attempts[m.attempt], m.step);
    }
  }

  lemma WorldStep(c: Setup, w: World, m: Move)
    requires WorldInv(c, w) && Enabled(c, w, m)
    ensures WorldInv(c, Next(c, w, m))
  {
    SoundStep(c, w, m);
    ReturnStep(c, w, m);
    if m.ByAttempt? {
      if Over(w.attempts[m.attempt]) {
        OldAttemptStep(c, w, m.attempt, m.step);
      } else {
        LastAttemptStep(c, w, m.attempt, m.step);
      }
    } else {
      MainStep(c, w, m);
    }
  }

  lemma {:induction false} RunInv(c: Setup, run: seq<World>, moves: seq<Move>, i: nat)
    requires IsRun(c, run, moves) && i < |run|
    ensures WorldInv(c, run[i])
  {
    if i > 0 {
      RunInv(c, run, moves, i - 1);
      WorldStep(c, run[i - 1], moves[i - 1]);
    }
  }

  // --- Theorems about every interleaving of every flow ------------------------------------------------------

  lemma GateFindsSlotEmpty(c: Setup, w: World, k: nat)
    requires WorldInv(c, w) && Enabled(c, w, ByAttempt(k, BySetup(OpenGate)))
    ensures w.slot.None? && k == |w.attempts| - 1 && w.main.Attempting?
  {
    OpeningIsUnwritten(c, w.attempts[k]);
  }

  /** Whenever a start gate opens, it is the last attempt's, and the slot is empty. */
  lemma SlotEmptyAtGate(c: Setup, run: seq<World>, moves: seq<Move>, i: nat, k: nat)
    requires IsRun(c, run, moves) && i < |moves| && moves[i] == ByAttempt(k, BySetup(OpenGate))
    ensures run[i].slot.None? && k == |run[i].attempts| - 1 && run[i].main.Attempting?
  {
    RunInv(c, run, moves, i);
    GateFindsSlotEmpty(c, run[i], k);
  }

  /** Until the flow ends, only the last attempt writes to the slot. */
  lemma OnlyLastWrites(c: Setup, run: seq<World>, moves: seq<Move>, i: nat, k: nat, end: OperationEnd)
    requires IsRun(c, run, moves) && i < |moves| && moves[i] == ByAttempt(k, ByThread(OperationEnds(end)))
    requires !run[i].main.Ended?
    ensures k == |run[i].attempts| - 1 && !run[i].main.Between?
  {
    RunInv(c, run, moves, i);
    var s := run[i].attempts[k];
    if Over(s) {
      OverNeverOperates(c, s);
    }
  }

  lemma OverNeverOperates(c: Setup, s: System)
    requires WorkerSafety.Inv(c, s) && Over(s)
    ensures !s.threads.worker.Operating?
  {
  }

  /** Taking a value never finds the slot empty. */
  lemma TakeNeverFails(c: Setup, run: seq<World>, moves: seq<Move>, i: nat)
    requires IsRun(c, run, moves) && i < |run|
    ensures !run[i].main.Panicked?
    ensures i < |moves| && moves[i].Take? ==> run[i].slot.Some?
  {
    RunInv(c, run, moves, i);
    if i < |moves| && moves[i].Take? {
      RunInv(c, run, moves, i + 1);
    }
  }

  /**
   A flow that returns a value returns the one that the operation of its last attempt returned,
   whatever earlier attempts had left in the slot, and whatever their threads did since.
   */
  lemma TakenFromLastAttempt(c: Setup, run: seq<World>, moves: seq<Move>, i: nat)
    requires IsRun(c, run, moves) && i < |run| && run[i].main.Ended? && run[i].main.taken.Some?
    ensures |run[i].attempts| > 0
    ensures var k := |run[i].attempts| - 1;
            && run[i].main.taken.value.attempt == k
            && TakenFrom(run[i].main.taken.value, k, run[i].attempts[k])
  {
    RunInv(c, run, moves, i);
  }
}
