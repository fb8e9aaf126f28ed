/**
 Cancellation tokens and their pending futures, as interleaved atomic steps.

 The flag is atomic; the registry is only touched under its lock. A poll loads the flag, locks
 and registers, loads the flag again under the lock, and unlocks. A cancel swaps the flag, drains
 the registry under the lock, and invokes the drained wakers one by one after unlocking.
 Steps of any number of futures and cancelling callers interleave in any order.
 */
module CancellationProtocol {
  import opened Options
  import opened Wakers

  /** Where a poll is: not polling, past the first load, or holding the lock with its entry inserted. */
  datatype PollPoint = AtRest | Loaded | Inserted(id: Id)

  datatype PollResult = NeverPolled | InProgress | Ready | Pending

  datatype Future = Future(alive: bool, point: PollPoint, registration: Option<Id>, polls: nat, last: PollResult)

  /** Where a cancelling caller is. Only the caller whose swap was first drains and wakes. */
  datatype CancelPoint = NotStarted | Draining | Waking(rest: map<Id, Waker>) | Returned

  datatype System = System(
    cancelled: bool,
    lock: Option<nat>,
    nextId: Id,
    wakers: map<Id, Waker>,
    futures: map<nat, Future>,
    callers: map<nat, CancelPoint>,
    leader: Option<nat>,
    woken: multiset<Waker>)

  datatype Step =
    | CreateFuture(future: nat)
    | PollLoad(future: nat)
    | PollInsert(future: nat, skips: nat)
    | PollConfirm(future: nat)
    | DropFuture(future: nat)
    | NewCaller(caller: nat)
    | CancelSwap(caller: nat)
    | CancelDrain(caller: nat)
    | CancelWake(caller: nat, id: Id)
    | CancelReturn(caller: nat)

  function Initial(): System {
    System(false, None, 0, map[], map[], map[], None, multiset{})
  }

  /** The waker the future supplied with its latest poll. */
  function CurrentWaker(s: System, f: nat): Waker
    requires f in s.futures
  {
    Waker(f, s.futures[f].polls)
  }

  predicate Polling(s: System, f: nat, point: PollPoint) {
    f in s.futures && s.futures[f].alive && s.futures[f].point == point
  }

  predicate CallerAt(s: System, c: nat, point: CancelPoint) { c in s.callers && s.callers[c] == point }

  ghost predicate Enabled(s: System, step: Step) {
    match step
    case CreateFuture(f) => f !in s.futures
    case PollLoad(f) => Polling(s, f, AtRest)
    case PollInsert(f, skips) =>
      && Polling(s, f, Loaded) && s.lock.None?
      && (s.futures[f].registration.None? ==> FirstFree(s.nextId, s.wakers.Keys, Candidate(s.nextId, skips), skips))
    case PollConfirm(f) => f in s.futures && s.futures[f].alive && s.futures[f].point.Inserted?
    case DropFuture(f) => Polling(s, f, AtRest) && (s.futures[f].registration.Some? ==> s.lock.None?)
    case NewCaller(c) => c !in s.callers
    case CancelSwap(c) => CallerAt(s, c, NotStarted)
    case CancelDrain(c) => CallerAt(s, c, Draining) && s.lock.None?
    case CancelWake(c, id) => c in s.callers && s.callers[c].Waking? && id in s.callers[c].rest
    case CancelReturn(c) => c in s.callers && s.callers[c].Waking? && s.callers[c].rest == map[]
  }

  function Put(s: System, f: nat, future: Future): System { s.(futures := s.futures[f := future]) }

  ghost function Next(s: System, step: Step): System
    requires Enabled(s, step)
  {
    match step
    case CreateFuture(f) => Put(s, f, Future(true, AtRest, None, 0, NeverPolled))
    case PollLoad(f) =>
      var u := s.futures[f];
      if s.cancelled then Put(s, f, u.(last := Ready))
      else Put(s, f, u.(point := Loaded, polls := u.polls + 1, last := InProgress))
    case PollInsert(f, skips) =>
      var u := s.futures[f];
      var id := if u.registration.Some? then u.registration.value else Candidate(s.nextId, skips);
      var next := if u.registration.Some? then s.nextId else Wrap(id + 1);
      Put(s, f, u.(point := Inserted(id))).(
        lock := Some(f), nextId := next, wakers := s.wakers[id := Waker(f, u.polls)])
    case PollConfirm(f) =>
      var u := s.futures[f];
      if s.cancelled
      then Put(s, f, u.(point := AtRest, registration := None, last := Ready)).(
        lock := None, wakers := s.wakers - {u.point.id})
      else Put(s, f, u.(point := AtRest, registration := Some(u.point.id), last := Pending)).(lock := None)
    case DropFuture(f) =>
      var u := s.futures[f];
      Put(s, f, u.(alive := false, registration := None))
      .(wakers := if u.registration.Some? then s.wakers - {u.registration.value} else s.wakers)
    case NewCaller(c) => s.(callers := s.callers[c := NotStarted])
    case CancelSwap(c) =>
      if s.cancelled then s.(callers := s.callers[c := Returned])
      else s.(cancelled := true, leader := Some(c), callers := s.callers[c := Draining])
    case CancelDrain(c) => s.(callers := s.callers[c := Waking(s.wakers)], wakers := map[])
    case CancelWake(c, id) =>
      s.(callers := s.callers[c := Waking(s.callers[c].rest - {id})],
         woken := s.woken + multiset{s.callers[c].rest[id]})
    case CancelReturn(c) => s.(callers := s.callers[c := Returned])
  }

  ghost predicate IsRun(run: seq<System>, steps: seq<Step>) {
    && |run| == |steps| + 1
    && run[0] == Initial()
    && forall i :: 0 <= i < |steps| ==> Enabled(run[i], steps[i]) && run[i + 1] == Next(run[i], steps[i])
  }

  // --- Invariants --------------------------------------------------------------------------------

  /** Whether the first cancel has taken the wakers out of the registry. */
  predicate Drained(s: System) {
    s.leader.Some? && s.leader.value in s.callers
        && (s.callers[s.leader.value].Waking? || s.callers[s.leader.value].Returned?)
  }

  /** The drained wakers that are still to be invoked. */
  function Rest(s: System): map<Id, Waker> {
    if Drained(s) && s.callers[s.leader.value].Waking? then s.callers[s.leader.value].rest else map[]
  }

  predicate Holds(u: Future, id: Id) { u.registration == Some(id) || u.point == Inserted(id) }

  /** The lock is held exactly by the future between its insertion and its second load. */
  ghost predicate LockInv(s: System) {
    && (s.lock.Some? ==>
         s.lock.value in s.futures && s.futures[s.lock.value].alive && s.futures[s.lock.value].point.Inserted?)
    && (forall f :: f in s.futures && s.futures[f].alive && s.futures[f].point.Inserted? ==>
          && s.lock == Some(f)
          && s.futures[f].point.id in s.wakers && s.wakers[s.futures[f].point.id] == CurrentWaker(s, f)
          && (s.futures[f].registration.None? || s.futures[f].registration == Some(s.futures[f].point.id)))
  }

  /** The swap made exactly one caller the leader; every other caller does nothing. */
  ghost predicate LeaderInv(s: System) {
    && (s.cancelled <==> s.leader.Some?)
    && (s.leader.Some? ==> s.leader.value in s.callers && !s.callers[s.leader.value].NotStarted?)
    && (forall c :: c in s.callers && s.leader != Some(c) ==> s.callers[c].NotStarted? || s.callers[c].Returned?)
    && (!s.cancelled ==> forall c :: c in s.callers ==> s.callers[c].NotStarted?)
  }

  /** Every entry belongs to the live future that holds its id, and is at most as new as its latest poll. */
  ghost predicate OwnedInv(s: System) {
    forall id :: id in s.wakers ==>
      var w := s.wakers[id];
      && w.future in s.futures && s.futures[w.future].alive && Holds(s.futures[w.future], id)
      && w.poll <= s.futures[w.future].polls
  }

  /** Before the drain, a registered future's entry is its own, and a pending one's is current. */
  ghost predicate RegisteredInv(s: System) {
    && (forall f :: f in s.futures && s.futures[f].alive && s.futures[f].last.Pending? ==>
          s.futures[f].registration.Some? && s.futures[f].point.AtRest?)
    && (!Drained(s) ==> forall f :: f in s.futures && s.futures[f].alive && s.futures[f].registration.Some? ==>
          var id := s.futures[f].registration.value;
          && id in s.wakers && s.wakers[id].future == f
          && (s.futures[f].last.Pending? ==> s.wakers[id] == CurrentWaker(s, f)))
  }

  /** After the drain the registry only ever holds the entry of the poll that has the lock. */
  ghost predicate DrainedInv(s: System) {
    Drained(s) ==> forall id :: id in s.wakers ==> s.lock == Some(s.wakers[id].future)
  }

  /** Wakers still to be invoked are distinct and not yet invoked; none has been invoked twice. */
  ghost predicate Tally(woken: multiset<Waker>, rest: map<Id, Waker>) {
    && (forall w :: woken[w] <= 1)
    && (forall id :: id in rest ==> woken[rest[id]] == 0)
    && EntriesDistinct(rest)
  }

  ghost predicate EntriesDistinct(wakers: map<Id, Waker>) {
    forall i, j :: i in wakers && j in wakers && wakers[i] == wakers[j] ==> i == j
  }

  ghost predicate WokenInv(s: System) {
    (!Drained(s) ==> s.woken == multiset{}) && Tally(s.woken, Rest(s))
  }

  predicate Awaits(s: System, f: nat) { f in s.futures && s.futures[f].alive && s.futures[f].last.Pending? }

  /** A pending future's current waker is still to be invoked, or has been. */
  ghost predicate NotLost(s: System) {
    Drained(s) ==> forall f :: Awaits(s, f) ==> s.woken[CurrentWaker(s, f)] == 1 || CurrentWaker(s, f) in Rest(s).Values
  }

  /** Pending futures hold distinct ids. */
  ghost predicate DistinctInv(s: System) {
    forall f, g :: Awaits(s, f) && Awaits(s, g) && f != g ==> s.futures[f].registration != s.futures[g].registration
  }

  ghost predicate Inv(s: System) {
    LockInv(s) && LeaderInv(s) && OwnedInv(s) && RegisteredInv(s) && DrainedInv(s) && WokenInv(s) && NotLost(s)
        && DistinctInv(s)
  }

  lemma LockStep(s: System, step: Step)
    requires LockInv(s)
    requires Enabled(s, step)
    ensures LockInv(Next(s, step))
  {
  }

  lemma LeaderStep(s: System, step: Step)
    requires LeaderInv(s) && Enabled(s, step)
    ensures LeaderInv(Next(s, step))
    ensures Drained(s) ==> Drained(Next(s, step))
    ensures Drained(Next(s, step)) && !Drained(s) ==> step.CancelDrain?
  {
  }

  lemma OwnedUnderLock(s: System, step: Step)
    requires LockInv(s) && OwnedInv(s)
    requires Enabled(s, step) && (step.PollInsert? || step.PollConfirm? || step.DropFuture?)
    ensures OwnedInv(Next(s, step))
  {
  }

  lemma OwnedElsewhere(s: System, step: Step)
    requires LockInv(s) && OwnedInv(s)
    requires Enabled(s, step) && !(step.PollInsert? || step.PollConfirm? || step.DropFuture?)
    ensures OwnedInv(Next(s, step))
  {
  }

  lemma OwnedStep(s: System, step: Step)
    requires LockInv(s) && OwnedInv(s)
    requires Enabled(s, step)
    ensures OwnedInv(Next(s, step))
  {
    if step.PollInsert? || step.PollConfirm? || step.DropFuture? {
      OwnedUnderLock(s, step);
    } else {
      OwnedElsewhere(s, step);
    }
  }

  lemma RegisteredUnderLock(s: System, step: Step)
    requires LockInv(s) && LeaderInv(s) && RegisteredInv(s)
    requires Enabled(s, step) && (step.PollInsert? || step.PollConfirm? || step.DropFuture?)
    ensures RegisteredInv(Next(s, step))
  {
  }

  lemma RegisteredElsewhere(s: System, step: Step)
    requires LockInv(s) && LeaderInv(s) && RegisteredInv(s)
    requires Enabled(s, step) && !(step.PollInsert? || step.PollConfirm? || step.DropFuture?)
    ensures RegisteredInv(Next(s, step))
  {
  }

  lemma RegisteredStep(s: System, step: Step)
    requires LockInv(s) && LeaderInv(s) && RegisteredInv(s)
    requires Enabled(s, step)
    ensures RegisteredInv(Next(s, step))
  {
    if step.PollInsert? || step.PollConfirm? || step.DropFuture? {
      RegisteredUnderLock(s, step);
    } else {
      RegisteredElsewhere(s, step);
    }
  }

  lemma DrainedStep(s: System, step: Step)
    requires LockInv(s) && LeaderInv(s) && OwnedInv(s) && DrainedInv(s)
    requires Enabled(s, step)
    ensures DrainedInv(Next(s, step))
  {
    LeaderStep(s, step);
  }

  lemma PendingOnlyShrinks(s: System, step: Step)
    requires Enabled(s, step) && LeaderInv(s) && Drained(Next(s, step))
    ensures var t := Next(s, step);
            forall f :: Awaits(t, f) ==> Awaits(s, f) && t.futures[f].registration == s.futures[f].registration
  {
    LeaderStep(s, step);
  }

  lemma DistinctStep(s: System, step: Step)
    requires LockInv(s) && LeaderInv(s) && OwnedInv(s) && RegisteredInv(s) && DistinctInv(s)
    requires Enabled(s, step)
    ensures DistinctInv(Next(s, step))
  {
    LeaderStep(s, step);
    RegisteredStep(s, step);
    var t := Next(s, step);
    if Drained(t) {
      PendingOnlyShrinks(s, step);
    }
  }

  /** Two entries of one future would carry the same id. */
  lemma OwnedEntriesDistinct(s: System)
    requires OwnedInv(s) && LockInv(s)
    ensures EntriesDistinct(s.wakers)
  {
  }

  lemma TallyAfterWake(woken: multiset<Waker>, rest: map<Id, Waker>, id: Id)
    requires Tally(woken, rest) && id in rest
    ensures Tally(woken + multiset{rest[id]}, rest - {id})
  {
  }

  lemma RestAfterDrain(s: System, caller: nat)
    requires LeaderInv(s) && Enabled(s, CancelDrain(caller))
    ensures var t := Next(s, CancelDrain(caller));
            !Drained(s) && Drained(t) && Rest(t) == s.wakers && t.woken == s.woken
  {
  }

  lemma RestAfterWake(s: System, caller: nat, id: Id)
    requires LeaderInv(s) && Enabled(s, CancelWake(caller, id))
    ensures var t := Next(s, CancelWake(caller, id));
            && Drained(s) && Drained(t)
            && id in Rest(s) && Rest(t) == Rest(s) - {id} && t.woken == s.woken + multiset{Rest(s)[id]}
  {
  }

  lemma RestElsewhere(s: System, step: Step)
    requires LeaderInv(s) && Enabled(s, step) && !step.CancelDrain? && !step.CancelWake?
    ensures var t := Next(s, step); Drained(t) == Drained(s) && Rest(t) == Rest(s) && t.woken == s.woken
  {
  }

  lemma WokenStep(s: System, step: Step)
    requires LeaderInv(s) && OwnedInv(s) && LockInv(s) && WokenInv(s)
    requires Enabled(s, step)
    ensures WokenInv(Next(s, step))
  {
    match step
    case CancelDrain(caller) =>
      OwnedEntriesDistinct(s);
      RestAfterDrain(s, caller);
    case CancelWake(caller, id) =>
      RestAfterWake(s, caller, id);
      TallyAfterWake(s.woken, Rest(s), id);
    case _ => RestElsewhere(s, step);
  }

  /** A waker is accounted for: invoked once, or still to be invoked. */
  ghost predicate Accounted(woken: multiset<Waker>, rest: map<Id, Waker>, w: Waker) {
    woken[w] == 1 || w in rest.Values
  }

  lemma AccountedAfterWake(woken: multiset<Waker>, rest: map<Id, Waker>, id: Id, w: Waker)
    requires Tally(woken, rest) && id in rest && Accounted(woken, rest, w)
    ensures Accounted(woken + multiset{rest[id]}, rest - {id}, w)
  {
    if w in rest.Values && rest[id] != w {
      var j :| j in rest && rest[j] == w;
      assert j in rest - {id} && (rest - {id})[j] == w;
    }
  }

  /** Whoever awaits after the drain awaited before the step, with the same waker. */
  lemma AwaitsBefore(s: System, step: Step, f: nat)
    requires LeaderInv(s) && Enabled(s, step) && Drained(Next(s, step)) && Awaits(Next(s, step), f)
    ensures Awaits(s, f) && CurrentWaker(Next(s, step), f) == CurrentWaker(s, f)
  {
    LeaderStep(s, step);
  }

  lemma NotLostStep(s: System, step: Step)
    requires LeaderInv(s) && RegisteredInv(s) && WokenInv(s) && NotLost(s)
    requires Enabled(s, step)
    ensures NotLost(Next(s, step))
  {
    var t := Next(s, step);
    if Drained(t) {
      forall f | Awaits(t, f) ensures Accounted(t.woken, Rest(t), CurrentWaker(t, f)) {
        AwaitsBefore(s, step, f);
        match step
        case CancelDrain(caller) =>
          RestAfterDrain(s, caller);
          assert s.futures[f].registration.value in Rest(t);
        case CancelWake(caller, id) =>
          RestAfterWake(s, caller, id);
          AccountedAfterWake(s.woken, Rest(s), id, CurrentWaker(s, f));
        case _ => RestElsewhere(s, step);
      }
    }
  }

  lemma {:induction false} RunInv(run: seq<System>, steps: seq<Step>, i: nat)
    requires IsRun(run, steps) && i < |run|
    ensures Inv(run[i])
  {
    if i > 0 {
      RunInv(run, steps, i - 1);
      var s, step := run[i - 1], steps[i - 1];
      LockStep(s, step);
      LeaderStep(s, step);
      OwnedStep(s, step);
      RegisteredStep(s, step);
      DrainedStep(s, step);
      WokenStep(s, step);
      NotLostStep(s, step);
      DistinctStep(s, step);
    }
  }

  // --- Theorems about every interleaving ----------------------------------------------------------

  predicate FirstCancelFinished(s: System) {
    s.leader.Some? && s.leader.value in s.callers && s.callers[s.leader.value].Returned?
  }

  /**
   No lost wakeup: once the first cancel has returned, every live future whose last poll answered
   Pending has had the waker of that very poll invoked, exactly once.
   */
  lemma NoLostWakeup(run: seq<System>, steps: seq<Step>, i: nat, f: nat)
    requires IsRun(run, steps) && i < |run| && FirstCancelFinished(run[i]) && Awaits(run[i], f)
    ensures run[i].woken[CurrentWaker(run[i], f)] == 1
  {
    RunInv(run, steps, i);
  }

  /**
   No waker is ever invoked twice, none before a cancellation, and the registry is empty after the
   drain while unlocked.
   */
  lemma WakersInvokedOnce(run: seq<System>, steps: seq<Step>, i: nat)
    requires IsRun(run, steps) && i < |run|
    ensures forall w :: run[i].woken[w] <= 1
    ensures !run[i].cancelled ==> run[i].woken == multiset{}
    ensures Drained(run[i]) && run[i].lock.None? ==> run[i].wakers == map[]
  {
    RunInv(run, steps, i);
    assert Drained(run[i]) ==> run[i].cancelled;
    if Drained(run[i]) && run[i].lock.None? {
      assert forall id :: id !in run[i].wakers;
    }
  }

  /** Live futures whose last poll answered Pending hold distinct ids, whatever the counter has wrapped over. */
  lemma PendingIdsDistinct(run: seq<System>, steps: seq<Step>, i: nat, f: nat, g: nat)
    requires IsRun(run, steps) && i < |run| && f != g && Awaits(run[i], f) && Awaits(run[i], g)
    ensures run[i].futures[f].registration.Some? && run[i].futures[g].registration.Some?
    ensures run[i].futures[f].registration.value != run[i].futures[g].registration.value
  {
    RunInv(run, steps, i);
  }

  /** A poll or a drop never removes or replaces an entry of another future. */
  lemma OthersKeepTheirEntries(run: seq<System>, steps: seq<Step>, i: nat, id: Id)
    requires IsRun(run, steps) && i < |steps| && id in run[i].wakers
    requires steps[i].PollInsert? || steps[i].PollConfirm? || steps[i].DropFuture?
    requires run[i].wakers[id].future != steps[i].future
    ensures id in run[i + 1].wakers && run[i + 1].wakers[id] == run[i].wakers[id]
  {
    RunInv(run, steps, i);
  }

  /**
   A poll that answers Pending has not missed the flag; a poll after the swap answers Ready and
   leaves nothing behind.
   */
  lemma ConfirmedPollSeesFlag(run: seq<System>, steps: seq<Step>, i: nat)
    requires IsRun(run, steps) && i < |steps| && steps[i].PollConfirm?
    ensures var f, s, t := steps[i].future, run[i], run[i + 1];
            && (t.futures[f].last.Pending? <==> !s.cancelled)
            && (t.futures[f].last.Ready? <==> s.cancelled)
            && (s.cancelled ==> t.futures[f].registration.None? && s.futures[f].point.id !in t.wakers)
  {
    RunInv(run, steps, i);
  }

  /**
   The first cancel never gets stuck: while it has not returned, it can take its next step, or the
   poll that holds the lock can take the step that releases it.
   */
  lemma FirstCancelNotBlocked(run: seq<System>, steps: seq<Step>, i: nat) returns (step: Step)
    requires IsRun(run, steps) && i < |run| && run[i].cancelled && !FirstCancelFinished(run[i])
    ensures Enabled(run[i], step)
    ensures step.PollConfirm? ==> Next(run[i], step).lock.None?
    ensures step.PollConfirm? || (step.CancelDrain? && run[i].leader == Some(step.caller))
            || (step.CancelWake? && run[i].leader == Some(step.caller))
            || (step.CancelReturn? && run[i].leader == Some(step.caller))
  {
    RunInv(run, steps, i);
    var s := run[i];
    var c := s.leader.value;
    match s.callers[c]
    case Draining => step := if s.lock.Some? then PollConfirm(s.lock.value) else CancelDrain(c);
    case Waking(rest) =>
      if rest == map[] {
        step := CancelReturn(c);
      } else {
        var id :| id in rest;
        step := CancelWake(c, id);
      }
  }

  /** A poll that wants to register can do so as soon as the lock is free, unless every id is taken. */
  lemma RegistrationPossible(s: System, f: nat) returns (step: Step)
    requires Polling(s, f, Loaded) && s.lock.None? && |s.wakers| < ID_SPACE
    ensures step.PollInsert? && step.future == f && Enabled(s, step)
  {
    var id, skips := FreeIdExists(s.nextId, s.wakers.Keys);
    assert |s.wakers.Keys| == |s.wakers|;
    step := PollInsert(f, skips);
  }
}
