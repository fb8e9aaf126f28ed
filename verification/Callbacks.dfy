/**
 Ordered, panic-isolated callbacks.

 What a callback does is given by the environment: an observer returns or panics, a rule
 decides or panics. Methods return how many callbacks they invoked next to their result.
 */
module Callbacks {
  import opened Options
  import opened Time

  datatype Decision = UseDefault | Retry | RetryWithHint(hint: Duration) | RetryWithJitteredHint(hint: Duration) | Abort

  datatype CallbackOutcome = Returns | Panics

  datatype RuleOutcome = Decides(decision: Decision) | RulePanics

  datatype CallbackPhase = BeforeAttemptPhase | AttemptFailedPhase | RulePhase | ScheduledPhase | CompletionPhase

  /** A captured panic: the callback's registration index and its phase. */
  datatype CallbackFailure = CallbackFailure(index: nat, phase: CallbackPhase)

  // --- Control observers: stop at the first panic ---------------------------------------

  /** `i` is the first panicking observer. */
  predicate FirstPanicAt(observers: seq<CallbackOutcome>, i: nat) {
    i < |observers| && observers[i].Panics? && forall j :: 0 <= j < i ==> observers[j].Returns?
  }

  function FirstPanic(observers: seq<CallbackOutcome>): (r: Option<nat>)
    ensures r.Some? ==> FirstPanicAt(observers, r.value)
    ensures r.None? <==> forall j :: 0 <= j < |observers| ==> observers[j].Returns?
  {
    if observers == [] then None
    else if observers[0].Panics? then Some(0)
    else match FirstPanic(observers[1..])
      case None => None
      case Some(i) => Some(i + 1)
  }

  /** Number of control observers that run: all of them, or up to and including the first panic. */
  function Invoked(observers: seq<CallbackOutcome>): nat {
    match FirstPanic(observers)
    case None => |observers|
    case Some(i) => i + 1
  }

  method TryEach(observers: seq<CallbackOutcome>, phase: CallbackPhase)
      returns (failure: Option<CallbackFailure>, invoked: nat)
    ensures failure.None? <==> FirstPanic(observers).None?
    ensures failure.Some? ==> failure.value.phase == phase && FirstPanicAt(observers, failure.value.index)
    ensures failure.Some? ==> FirstPanic(observers) == Some(failure.value.index)
    ensures invoked == Invoked(observers)
  {
    var index := 0;
    while index < |observers|
      invariant index <= |observers|
      invariant forall j :: 0 <= j < index ==> observers[j].Returns?
    {
      if observers[index].Panics? {
        return Some(CallbackFailure(index, phase)), index + 1;
      }
      index := index + 1;
    }
    return None, |observers|;
  }

  // --- Completion observers: run all, collect every panic --------------------------------

  /** The captured panics among the first observers, in registration order. */
  function Diagnostics(observers: seq<CallbackOutcome>): seq<CallbackFailure> {
    if observers == [] then []
    else
      var last := |observers| - 1;
      Diagnostics(observers[..last]) +
      (if observers[last].Panics? then [CallbackFailure(last, CompletionPhase)] else [])
  }

  /** The diagnostics are exactly the panicking observers, in increasing index order. */
  lemma {:induction false} DiagnosticsExact(observers: seq<CallbackOutcome>)
    ensures forall i: nat :: CallbackFailure(i, CompletionPhase) in Diagnostics(observers) <==>
              i < |observers| && observers[i].Panics?
    ensures forall d :: d in Diagnostics(observers) ==> d.phase == CompletionPhase
    ensures forall k, l :: 0 <= k < l < |Diagnostics(observers)| ==>
             Diagnostics(observers)[k].index < Diagnostics(observers)[l].index
  {
    if observers != [] {
      var rest := observers[..|observers| - 1];
      DiagnosticsExact(rest);
      forall k | 0 <= k < |Diagnostics(rest)|
        ensures Diagnostics(rest)[k].index < |rest|
      {
        var d := Diagnostics(rest)[k];
        assert d == CallbackFailure(d.index, CompletionPhase) && d in Diagnostics(rest);
      }
    }
  }

  // --- Rules: the first concrete decision or the first panic ------------------------------

  datatype Verdict = Verdict(decision: Decision, panic: Option<nat>, invoked: nat)

  /** Whether a rule stops the evaluation. */
  predicate Decisive(r: RuleOutcome) { r.RulePanics? || !r.decision.UseDefault? }

  function Judge(rules: seq<RuleOutcome>, from: nat): (v: Verdict)
    requires from <= |rules|
    requires forall j :: 0 <= j < from ==> !Decisive(rules[j])
    ensures v.invoked <= |rules|
    ensures v.panic.Some? ==> v.panic.value + 1 == v.invoked && rules[v.panic.value].RulePanics?
    ensures v.panic.None? && !v.decision.UseDefault? ==>
              v.invoked > 0 && rules[v.invoked - 1] == Decides(v.decision)
    ensures v.panic.None? && v.decision.UseDefault? ==> v.invoked == |rules|
    ensures forall j :: 0 <= j < v.invoked - 1 ==> !Decisive(rules[j])
    ensures v.panic.None? && v.decision.UseDefault? <==> forall j :: 0 <= j < |rules| ==> !Decisive(rules[j])
    decreases |rules| - from
  {
    if from == |rules| then Verdict(UseDefault, None, |rules|)
    else if rules[from].RulePanics? then Verdict(UseDefault, Some(from), from + 1)
    else if !rules[from].decision.UseDefault? then Verdict(rules[from].decision, None, from + 1)
    else Judge(rules, from + 1)
  }

  method TryDecide(rules: seq<RuleOutcome>) returns (r: Result<Decision, CallbackFailure>, invoked: nat)
    ensures invoked == Judge(rules, 0).invoked
    ensures r == match Judge(rules, 0).panic
                 case Some(i) => Err(CallbackFailure(i, RulePhase))
                 case None => Ok(Judge(rules, 0).decision)
  {
    var index := 0;
    while index < |rules|
      invariant index <= |rules|
      invariant forall j :: 0 <= j < index ==> !Decisive(rules[j])
      invariant Judge(rules, 0) == Judge(rules, index)
    {
      if rules[index].RulePanics? {
        return Err(CallbackFailure(index, RulePhase)), index + 1;
      }
      if !rules[index].decision.UseDefault? {
        return Ok(rules[index].decision), index + 1;
      }
      index := index + 1;
    }
    return Ok(UseDefault), |rules|;
  }
}
