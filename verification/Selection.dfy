/**
 Which readiness decides: the four arms that poll an admitted asynchronous attempt, and the
 asynchronous and blocking waits between attempts.

 A poll script lists, cycle by cycle, what each input would answer if it were polled.
 */
module Selection {
  import opened Options

  /** The first position whose entry is ready, or the length if there is none. */
  function First<P>(polls: seq<P>, ready: P -> bool): (k: nat)
    ensures k <= |polls|
    ensures forall i :: 0 <= i < k ==> !ready(polls[i])
    ensures k < |polls| ==> ready(polls[k])
  {
    if polls == [] then 0
    else if ready(polls[0]) then 0
    else 1 + First(polls[1..], ready)
  }

  lemma FirstIs<P>(polls: seq<P>, ready: P -> bool, k: nat)
    requires k <= |polls| && (forall i :: 0 <= i < k ==> !ready(polls[i])) && (k < |polls| ==> ready(polls[k]))
    ensures First(polls, ready) == k
  {
  }

  // --- An admitted attempt ---------------------------------------------------------------------------

  /** What one poll cycle would find; the timer answers true when it fired and false when it failed. */
  datatype Readiness = Readiness(operation: Option<Result<int, int>>, cancelled: bool, timer: Option<bool>)

  datatype AttemptOutcome = Completed(result: Result<int, int>) | Cancelled | TimedOut | TimerFailed

  /** An absent input is never ready. */
  function Present(p: Readiness, timed: bool, cancellable: bool): Readiness {
    Readiness(p.operation, cancellable && p.cancelled, if timed then p.timer else None)
  }

  predicate AnyReady(p: Readiness) { p.operation.Some? || p.cancelled || p.timer.Some? }

  /** The operation beats cancellation, and cancellation beats the timer. */
  ghost predicate Wins(p: Readiness, o: AttemptOutcome) {
    match o
    case Completed(r) => p.operation == Some(r)
    case Cancelled => p.operation.None? && p.cancelled
    case TimedOut => p.operation.None? && !p.cancelled && p.timer == Some(true)
    case TimerFailed => p.operation.None? && !p.cancelled && p.timer == Some(false)
  }

  /** The attempt's outcome is the winner of the first poll cycle in which a present input is ready. */
  ghost predicate Selected(polls: seq<Readiness>, timed: bool, cancellable: bool, o: Option<AttemptOutcome>,
      cycles: nat) {
    var k := First(polls, (p: Readiness) => AnyReady(Present(p, timed, cancellable)));
    if k == |polls| then o.None? && cycles == k
    else o.Some? && cycles == k + 1 && Wins(Present(polls[k], timed, cancellable), o.value)
  }

  /** The winner of a cycle in which something is ready. */
  function Winner(p: Readiness): (o: AttemptOutcome)
    requires AnyReady(p)
    ensures Wins(p, o)
  {
    if p.operation.Some? then Completed(p.operation.value)
    else if p.cancelled then Cancelled
    else TimerOutcome(p.timer.value)
  }

  /** Cycle by cycle: the winner of the first cycle that has one, or else the operation's result. */
  function Decided(polls: seq<Readiness>, result: Result<int, int>, timed: bool, cancellable: bool): AttemptOutcome {
    if polls == [] then Completed(result)
    else if AnyReady(Present(polls[0], timed, cancellable)) then Winner(Present(polls[0], timed, cancellable))
    else Decided(polls[1..], result, timed, cancellable)
  }

  /** The poll cycles of an operation that returns at last, unless something else decides before. */
  function Until(polls: seq<Readiness>, result: Result<int, int>): seq<Readiness> {
    polls + [Readiness(Some(result), false, None)]
  }

  function TimerOutcome(ok: bool): AttemptOutcome { if ok then TimedOut else TimerFailed }

  method PollBoth(polls: seq<Readiness>) returns (o: Option<AttemptOutcome>, cycles: nat)
    ensures Selected(polls, true, true, o, cycles)
  {
    o, cycles := None, 0;
    var ready := (p: Readiness) => AnyReady(Present(p, true, true));
    while cycles < |polls|
      invariant cycles <= |polls| && o.None?
      invariant forall i :: 0 <= i < cycles ==> !ready(polls[i])
    {
      var p := polls[cycles];
      if p.operation.Some? {
        o := Some(Completed(p.operation.value));
      } else if p.cancelled {
        o := Some(Cancelled);
      } else if p.timer.Some? {
        o := Some(TimerOutcome(p.timer.value));
      }
      if o.Some? {
        FirstIs(polls, ready, cycles);
        return o, cycles + 1;
      }
      cycles := cycles + 1;
    }
    FirstIs(polls, ready, cycles);
  }

  method PollTimed(polls: seq<Readiness>) returns (o: Option<AttemptOutcome>, cycles: nat)
    ensures Selected(polls, true, false, o, cycles)
  {
    o, cycles := None, 0;
    var ready := (p: Readiness) => AnyReady(Present(p, true, false));
    while cycles < |polls|
      invariant cycles <= |polls| && o.None?
      invariant forall i :: 0 <= i < cycles ==> !ready(polls[i])
    {
      var p := polls[cycles];
      if p.operation.Some? {
        o := Some(Completed(p.operation.value));
      } else if p.timer.Some? {
        o := Some(TimerOutcome(p.timer.value));
      }
      if o.Some? {
        FirstIs(polls, ready, cycles);
        return o, cycles + 1;
      }
      cycles := cycles + 1;
    }
    FirstIs(polls, ready, cycles);
  }

  method PollCancellable(polls: seq<Readiness>) returns (o: Option<AttemptOutcome>, cycles: nat)
    ensures Selected(polls, false, true, o, cycles)
  {
    o, cycles := None, 0;
    var ready := (p: Readiness) => AnyReady(Present(p, false, true));
    while cycles < |polls|
      invariant cycles <= |polls| && o.None?
      invariant forall i :: 0 <= i < cycles ==> !ready(polls[i])
    {
      var p := polls[cycles];
      if p.operation.Some? {
        o := Some(Completed(p.operation.value));
      } else if p.cancelled {
        o := Some(Cancelled);
      }
      if o.Some? {
        FirstIs(polls, ready, cycles);
        return o, cycles + 1;
      }
      cycles := cycles + 1;
    }
    FirstIs(polls, ready, cycles);
  }

  method PollBare(polls: seq<Readiness>) returns (o: Option<AttemptOutcome>, cycles: nat)
    ensures Selected(polls, false, false, o, cycles)
  {
    o, cycles := None, 0;
    var ready := (p: Readiness) => AnyReady(Present(p, false, false));
    while cycles < |polls|
      invariant cycles <= |polls| && o.None?
      invariant forall i :: 0 <= i < cycles ==> !ready(polls[i])
    {
      var p := polls[cycles];
      if p.operation.Some? {
        FirstIs(polls, ready, cycles);
        return Some(Completed(p.operation.value)), cycles + 1;
      }
      cycles := cycles + 1;
    }
    FirstIs(polls, ready, cycles);
  }

  /** The four arms are one priority select in which absent inputs are never ready. */
  method ExecuteAttempt(timed: bool, cancellable: bool, polls: seq<Readiness>)
      returns (o: Option<AttemptOutcome>, cycles: nat)
    ensures Selected(polls, timed, cancellable, o, cycles)
  {
    match (timed, cancellable) {
      case (true, true) => o, cycles := PollBoth(polls);
      case (true, false) => o, cycles := PollTimed(polls);
      case (false, true) => o, cycles := PollCancellable(polls);
      case (false, false) => o, cycles := PollBare(polls);
    }
  }

  /** The selection determines both its outcome and how often it polled. */
  lemma SelectionDeterministic(polls: seq<Readiness>, timed: bool, cancellable: bool,
                               o: Option<AttemptOutcome>, m: nat, q: Option<AttemptOutcome>, n: nat)
    requires Selected(polls, timed, cancellable, o, m) && Selected(polls, timed, cancellable, q, n)
    ensures o == q && m == n
  {
    var k := First(polls, (p: Readiness) => AnyReady(Present(p, timed, cancellable)));
    if k < |polls| {
      var p := Present(polls[k], timed, cancellable);
      assert Wins(p, o.value) && Wins(p, q.value);
    }
  }

  /** Without a timer the outcome never blames one, and without a token it is never a cancellation. */
  lemma AbsentNeverWins(polls: seq<Readiness>, timed: bool, cancellable: bool, o: Option<AttemptOutcome>, cycles: nat)
    requires Selected(polls, timed, cancellable, o, cycles) && o.Some?
    ensures !timed ==> !o.value.TimedOut? && !o.value.TimerFailed?
    ensures !cancellable ==> !o.value.Cancelled?
  {
    var k := First(polls, (p: Readiness) => AnyReady(Present(p, timed, cancellable)));
    assert Wins(Present(polls[k], timed, cancellable), o.value);
  }

  lemma {:induction false} DecidedByFirst(polls: seq<Readiness>, result: Result<int, int>, timed: bool,
      cancellable: bool)
    ensures var all := Until(polls, result);
            var k := First(all, (p: Readiness) => AnyReady(Present(p, timed, cancellable)));
            k < |all| && Wins(Present(all[k], timed, cancellable), Decided(polls, result, timed, cancellable))
  {
    var all, ready := Until(polls, result), (p: Readiness) => AnyReady(Present(p, timed, cancellable));
    if polls == [] {
      FirstIs(all, ready, 0);
    } else if ready(polls[0]) {
      FirstIs(all, ready, 0);
    } else {
      DecidedByFirst(polls[1..], result, timed, cancellable);
      assert all[1..] == Until(polls[1..], result);
    }
  }

  /** The four arms agree with the cycle-by-cycle decision. */
  lemma ExecutedIsDecided(polls: seq<Readiness>, result: Result<int, int>, timed: bool, cancellable: bool,
                          o: Option<AttemptOutcome>, cycles: nat)
    requires Selected(Until(polls, result), timed, cancellable, o, cycles)
    ensures o == Some(Decided(polls, result, timed, cancellable))
  {
    DecidedByFirst(polls, result, timed, cancellable);
  }

  /** Polls an operation that returns at last. */
  method ExecuteToEnd(timed: bool, cancellable: bool, polls: seq<Readiness>, result: Result<int, int>)
      returns (o: AttemptOutcome)
    ensures o == Decided(polls, result, timed, cancellable)
  {
    var selected, cycles := ExecuteAttempt(timed, cancellable, Until(polls, result));
    ExecutedIsDecided(polls, result, timed, cancellable, selected, cycles);
    o := selected.value;
  }

  /** In some poll cycle the operation returned this value. */
  ghost predicate Produced(polls: seq<Readiness>, result: Result<int, int>, value: int) {
    exists k :: 0 <= k <= |polls| && Until(polls, result)[k].operation == Some(Ok(value))
  }

  lemma {:induction false} CompletionWasPolled(polls: seq<Readiness>, result: Result<int, int>, timed: bool,
      cancellable: bool, value: int)
    requires Decided(polls, result, timed, cancellable) == Completed(Ok(value))
    ensures Produced(polls, result, value)
  {
    if polls == [] || AnyReady(Present(polls[0], timed, cancellable)) {
      assert Until(polls, result)[0].operation == Some(Ok(value));
    } else {
      CompletionWasPolled(polls[1..], result, timed, cancellable, value);
      var k :| 0 <= k <= |polls[1..]| && Until(polls[1..], result)[k].operation == Some(Ok(value));
      assert Until(polls, result)[k + 1] == Until(polls[1..], result)[k];
    }
  }

  // --- The wait before the next attempt --------------------------------------------------------------

  datatype WaitPoll = WaitPoll(cancelled: bool, timer: Option<bool>)

  /** Everything a wait may read: the flag at its checks, the timer registration, and the poll cycles. */
  datatype WaitScript = WaitScript(
    cancelledAtEntry: bool, cancelledAfterYield: bool, registered: bool, cancelledAtError: bool, polls: seq<WaitPoll>)

  datatype Waited = WaitElapsed | WaitStopped | WaitBroken | WaitPending

  function TimerWaited(ok: bool): Waited { if ok then WaitElapsed else WaitBroken }

  predicate WaitReady(p: WaitPoll, cancellable: bool) { (cancellable && p.cancelled) || p.timer.Some? }

  function ReadyIf(cancellable: bool): WaitPoll -> bool { (p: WaitPoll) => WaitReady(p, cancellable) }

  /** Cycle by cycle: cancellation beats the timer in the first cycle where either is ready. */
  function PolledWait(polls: seq<WaitPoll>, cancellable: bool): Waited {
    if polls == [] then WaitPending
    else if cancellable && polls[0].cancelled then WaitStopped
    else if polls[0].timer.Some? then TimerWaited(polls[0].timer.value)
    else PolledWait(polls[1..], cancellable)
  }

  /** The same decision, by looking for the first ready cycle. */
  lemma {:induction false} WaitedByFirst(polls: seq<WaitPoll>, cancellable: bool)
    ensures var k := First(polls, ReadyIf(cancellable));
            if k == |polls| then PolledWait(polls, cancellable).WaitPending?
            else PolledWait(polls, cancellable) ==
                   if cancellable && polls[k].cancelled then WaitStopped
                   else if polls[k].timer == Some(true) then WaitElapsed else WaitBroken
  {
    if polls != [] {
      WaitedByFirst(polls[1..], cancellable);
    }
  }

  /** A wait that is not immediate, seen from either facade. */
  function TimedWait(s: WaitScript, cancellable: bool): Waited {
    if cancellable && s.cancelledAtEntry then WaitStopped
    else if s.registered then PolledWait(s.polls, cancellable)
    else if cancellable && s.cancelledAtError then WaitStopped
    else WaitBroken
  }

  lemma {:induction false} QuietPrefix(polls: seq<WaitPoll>, cancellable: bool, i: nat)
    requires i <= |polls| && forall j :: 0 <= j < i ==> !WaitReady(polls[j], cancellable)
    ensures PolledWait(polls, cancellable) == PolledWait(polls[i..], cancellable)
  {
    if i > 0 {
      assert !WaitReady(polls[0], cancellable);
      assert forall j :: 0 <= j < i - 1 ==> polls[1..][j] == polls[j + 1];
      QuietPrefix(polls[1..], cancellable, i - 1);
      assert polls[1..][i - 1..] == polls[i..];
    } else {
      assert polls[0..] == polls;
    }
  }

  method PollWait(polls: seq<WaitPoll>, cancellable: bool) returns (w: Waited)
    ensures w == PolledWait(polls, cancellable)
  {
    var i := 0;
    while i < |polls|
      invariant i <= |polls|
      invariant forall j :: 0 <= j < i ==> !WaitReady(polls[j], cancellable)
    {
      if cancellable && polls[i].cancelled {
        QuietPrefix(polls, cancellable, i);
        return WaitStopped;
      }
      if polls[i].timer.Some? {
        QuietPrefix(polls, cancellable, i);
        return TimerWaited(polls[i].timer.value);
      }
      i := i + 1;
    }
    QuietPrefix(polls, cancellable, i);
    return WaitPending;
  }

  /** The timer alone, awaited without a cancellation token. */
  method AwaitTimer(polls: seq<WaitPoll>) returns (w: Waited)
    ensures w == PolledWait(polls, false)
  {
    var i := 0;
    while i < |polls|
      invariant i <= |polls|
      invariant forall j :: 0 <= j < i ==> !WaitReady(polls[j], false)
    {
      if polls[i].timer.Some? {
        QuietPrefix(polls, false, i);
        return TimerWaited(polls[i].timer.value);
      }
      i := i + 1;
    }
    QuietPrefix(polls, false, i);
    return WaitPending;
  }

  /** An immediate asynchronous wait yields once and then looks at the flag again. */
  function AsyncWait(s: WaitScript, immediate: bool, cancellable: bool): Waited {
    if immediate
    then if cancellable && (s.cancelledAtEntry || s.cancelledAfterYield) then WaitStopped else WaitElapsed
    else TimedWait(s, cancellable)
  }

  function BlockingWait(s: WaitScript, immediate: bool, cancellable: bool): Waited {
    if immediate then (if cancellable && s.cancelledAtEntry then WaitStopped else WaitElapsed)
    else TimedWait(s, cancellable)
  }

  /** The script of a timer that fires at last, unless something else decides before. */
  function Firing(s: WaitScript): WaitScript { s.(polls := s.polls + [WaitPoll(false, Some(true))]) }

  lemma {:induction false} FiringDecides(polls: seq<WaitPoll>, cancellable: bool)
    ensures !PolledWait(polls + [WaitPoll(false, Some(true))], cancellable).WaitPending?
  {
    if polls != [] {
      FiringDecides(polls[1..], cancellable);
      assert (polls + [WaitPoll(false, Some(true))])[1..] == polls[1..] + [WaitPoll(false, Some(true))];
    }
  }

  lemma FiringNeverPends(s: WaitScript, cancellable: bool)
    ensures !TimedWait(Firing(s), cancellable).WaitPending?
  {
    FiringDecides(s.polls, cancellable);
  }

  method Sleep(s: WaitScript, immediate: bool, cancellable: bool) returns (w: Waited)
    ensures w == AsyncWait(s, immediate, cancellable)
  {
    if cancellable && s.cancelledAtEntry {
      return WaitStopped;
    }
    if immediate {
      return if cancellable && s.cancelledAfterYield then WaitStopped else WaitElapsed;
    }
    if !s.registered {
      return if cancellable && s.cancelledAtError then WaitStopped else WaitBroken;
    }
    if !cancellable {
      w := AwaitTimer(s.polls);
      return;
    }
    w := PollWait(s.polls, true);
  }

  method WaitForBackoff(s: WaitScript, immediate: bool, cancellable: bool) returns (w: Waited)
    ensures w == BlockingWait(s, immediate, cancellable)
  {
    if cancellable && s.cancelledAtEntry {
      return WaitStopped;
    }
    if immediate {
      return WaitElapsed;
    }
    if !s.registered {
      return if cancellable && s.cancelledAtError then WaitStopped else WaitBroken;
    }
    w := PollWait(s.polls, cancellable);
  }

  /** Whether the timer that was polled has fired; otherwise it has failed. */
  predicate TimerAnswer(p: WaitPoll) { p.timer.Some? && p.timer.value }

  /** The position of the first poll cycle that decides, if the timer could be registered. */
  function DecidingCycle(s: WaitScript, cancellable: bool): Option<nat> {
    var k := First(s.polls, ReadyIf(cancellable));
    if s.registered && k < |s.polls| then Some(k) else None
  }

  /**
   A wait that is not immediate: it is stopped exactly when a flag it read was set, at entry, after
   a failed registration or in the cycle that decides; it is broken exactly when the registration
   failed or the timer failed in that cycle, with no flag set; it elapses exactly when the timer
   fired in that cycle with no flag set.
   */
  lemma TimedWaitExact(s: WaitScript, cancellable: bool)
    ensures var w, k := TimedWait(s, cancellable), DecidingCycle(s, cancellable);
            var entered := !(cancellable && s.cancelledAtEntry);
            var quiet := entered && k.Some? && !(cancellable && s.polls[k.value].cancelled);
            && (w.WaitStopped? <==>
                  cancellable && (s.cancelledAtEntry || (!s.registered && s.cancelledAtError)
                                  || (k.Some? && s.polls[k.value].cancelled)))
            && (w.WaitBroken? <==>
                  || (entered && !s.registered && !(cancellable && s.cancelledAtError))
                  || (quiet && !TimerAnswer(s.polls[k.value])))
            && (w.WaitElapsed? <==> quiet && TimerAnswer(s.polls[k.value]))
            && (w.WaitPending? <==> entered && s.registered && k.None?)
  {
    WaitedByFirst(s.polls, cancellable);
    var k := First(s.polls, ReadyIf(cancellable));
    assert k < |s.polls| ==> ReadyIf(cancellable)(s.polls[k]);
  }

  /** An immediate wait never breaks; the asynchronous one looks at the flag twice, the blocking one once. */
  lemma ImmediateWaitExact(s: WaitScript, cancellable: bool)
    ensures var w := AsyncWait(s, true, cancellable);
            && (w.WaitStopped? <==> cancellable && (s.cancelledAtEntry || s.cancelledAfterYield))
            && (w.WaitElapsed? <==> !w.WaitStopped?)
    ensures var w := BlockingWait(s, true, cancellable);
            (w.WaitStopped? <==> cancellable && s.cancelledAtEntry) && (w.WaitElapsed? <==> !w.WaitStopped?)
  {
  }

  /** Both waits select the same outcome, except that only the asynchronous one can be cancelled while it yields. */
  lemma WaitsAgree(s: WaitScript, immediate: bool, cancellable: bool)
    ensures AsyncWait(s, immediate, cancellable) == BlockingWait(s, immediate, cancellable) <==>
              !(immediate && cancellable && !s.cancelledAtEntry && s.cancelledAfterYield)
  {
  }

  /** A wait elapses only when its timer fired in a cycle with no cancellation in it or before it. */
  lemma ElapsedMeansFired(s: WaitScript, cancellable: bool)
    requires TimedWait(s, cancellable) == WaitElapsed
    ensures exists k :: 0 <= k < |s.polls| && s.polls[k].timer == Some(true)
                        && forall i :: 0 <= i <= k ==> !(cancellable && s.polls[i].cancelled)
  {
    WaitedByFirst(s.polls, cancellable);
    var ready := ReadyIf(cancellable);
    var k := First(s.polls, ready);
    assert forall i :: 0 <= i < k ==> !ready(s.polls[i]);
    assert s.polls[k].timer == Some(true);
  }
}
