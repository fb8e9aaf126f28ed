/**
 Completion observers: every one of them is told the frozen terminal result, once and in
 registration order, after the last control event of the flow.
 */
module Completion {
  import opened Callbacks
  import opened Driving

  /** `observer` was given `terminal` when the flow's trace had `after` events. */
  datatype Notification = Notification(observer: nat, terminal: Terminal, after: nat)

  /** One notification per observer, in registration order. */
  function Notifications(count: nat, terminal: Terminal, after: nat): seq<Notification> {
    seq(count, i requires 0 <= i => Notification(i, terminal, after))
  }

  /** A result together with the panics of its completion observers. */
  datatype Outcome = Outcome(terminal: Terminal, diagnostics: seq<CallbackFailure>)

  /** The registered observers; `log` is the history of their invocations. */
  class CompletionObservers {
    const outcomes: seq<CallbackOutcome>
    ghost var log: seq<Notification>

    constructor (outcomes: seq<CallbackOutcome>)
      ensures this.outcomes == outcomes && log == []
    {
      this.outcomes := outcomes;
      log := [];
    }

    method Notify(index: nat, terminal: Terminal, ghost after: nat) returns (outcome: CallbackOutcome)
      requires index < |outcomes|
      modifies this
      ensures outcome == outcomes[index] && log == old(log) + [Notification(index, terminal, after)]
    {
      log := log + [Notification(index, terminal, after)];
      outcome := outcomes[index];
    }

    method NotifyEach(terminal: Terminal, ghost after: nat) returns (failures: seq<CallbackFailure>)
      modifies this
      ensures log == old(log) + Notifications(|outcomes|, terminal, after)
      ensures failures == Diagnostics(outcomes)
    {
      failures := [];
      var index := 0;
      while index < |outcomes|
        invariant index <= |outcomes|
        invariant log == old(log) + Notifications(index, terminal, after)
        invariant failures == Diagnostics(outcomes[..index])
      {
        assert outcomes[..index + 1][..index] == outcomes[..index];
        var outcome := Notify(index, terminal, after);
        if outcome.Panics? {
          failures := failures + [CallbackFailure(index, CompletionPhase)];
        }
        index := index + 1;
      }
      assert outcomes[..|outcomes|] == outcomes;
    }
  }

  /** The frozen result goes to every completion observer once; only their panics are added to it. */
  method Complete(terminal: Terminal, observers: CompletionObservers, ghost after: nat) returns (outcome: Outcome)
    modifies observers
    ensures outcome == Outcome(terminal, Diagnostics(observers.outcomes))
    ensures observers.log == old(observers.log) + Notifications(|observers.outcomes|, terminal, after)
  {
    var diagnostics := observers.NotifyEach(terminal, after);
    outcome := Outcome(terminal, diagnostics);
  }

  /** Each registered observer, and nobody else, appears exactly once, at its own position. */
  lemma {:induction false} NotifiedExactlyOnce(count: nat, terminal: Terminal, after: nat)
    ensures var log := Notifications(count, terminal, after);
            && |log| == count
            && (forall i :: 0 <= i < count ==> log[i] == Notification(i, terminal, after))
            && (forall n :: multiset(log)[n] ==
                  if n.observer < count && n.terminal == terminal && n.after == after then 1 else 0)
    decreases count
  {
    if count > 0 {
      NotifiedExactlyOnce(count - 1, terminal, after);
      var rest := Notifications(count - 1, terminal, after);
      assert Notifications(count, terminal, after) == rest + [Notification(count - 1, terminal, after)];
    }
  }
}
