/**
 The delay a planned retry publishes and waits for, in terms of the rule's decision, the policy
 and the random samples.
 */
module DelayTable {
  import opened Options
  import opened Time
  import opened Backoff
  import opened Callbacks
  import opened FlowModel
  import opened FailureTable

  /** A delay cut at the policy's final cap. */
  function AtMost(limit: Option<Duration>, delay: int): int {
    if limit.Some? && limit.value < delay then limit.value else delay
  }

  /** The policy's own delay for this retry: its base delay, jittered. */
  function OwnDelay(cfg: Config, index: nat, draws: Draws): Duration {
    ApplyJitter(cfg.policy, cfg.arithmetic, BaseDelay(cfg.policy, cfg.arithmetic, index, draws.base), draws.jitter)
  }

  /** What is published for a decision: `own` is the policy's delay, `jittered` the hint with jitter applied. */
  ghost predicate Publishes(policy: Policy, d: Decision, own: Duration, jittered: Duration -> Duration,
      delay: Duration) {
    match d
    case RetryWithHint(hint) =>
      && (policy.retryAfter.PreferHint? ==> delay == AtMost(policy.limit, hint))
      && (policy.retryAfter.AtLeastBackoff? ==> delay == AtMost(policy.limit, if own < hint then hint else own))
      && (policy.retryAfter.IgnoreHint? ==> delay == AtMost(policy.limit, own))
    case RetryWithJitteredHint(hint) =>
      && (policy.retryAfter.PreferHint? ==> delay == AtMost(policy.limit, jittered(hint)))
      && (policy.retryAfter.AtLeastBackoff? ==>
            delay == AtMost(policy.limit, if own < jittered(hint) then jittered(hint) else own))
      && (policy.retryAfter.IgnoreHint? ==> delay == AtMost(policy.limit, own))
    case _ => delay == AtMost(policy.limit, own)
  }

  /** The selection itself, for every decision, policy, sample and rounding. */
  lemma SelectedDelay(cfg: Config, index: nat, d: Decision, draws: Draws)
    ensures var jittered := (hint: Duration) => ApplyJitter(cfg.policy, cfg.arithmetic, hint, draws.hint);
            Publishes(cfg.policy, d, OwnDelay(cfg, index, draws), jittered,
                      StepAt(cfg.policy, cfg.arithmetic, index, RequestOf(d), draws).effective)
  {
  }

  /**
   A planned retry publishes, and waits for, the delay of its decision at the next index: a plain
   hint as it is, a jittered hint jittered with the hint's own sample, and otherwise the policy's
   own delay, combined as the policy says and cut at its cap. The hint is published as given.
   */
  lemma PublishedDelay(cfg: Config, f: Flow, failure: Failure, r: FailureInputs)
    requires f.budget.active.Some? && RecordFailureStep(cfg, f, failure, r).Go?
    ensures var g := RecordFailureStep(cfg, f, failure, r).flow;
            var jittered := (hint: Duration) => ApplyJitter(cfg.policy, cfg.arithmetic, hint, r.draws.hint);
            var d := Judge(r.rules, 0).decision;
            && g.nextDelay.Some?
            && Publishes(cfg.policy, d, OwnDelay(cfg, NextIndex(f.retryIndex), r.draws), jittered, g.nextDelay.value)
  {
    TableDecides(cfg, f, failure, r);
    SelectedDelay(cfg, NextIndex(f.retryIndex), Effective(r), r.draws);
  }

  lemma ScheduledHint(cfg: Config, f: Flow, decision: Decision, r: FailureInputs)
    ensures var s := Schedule(cfg, f, decision, r);
            s.Go? ==> s.flow.hint == match decision
                                     case RetryWithHint(hint) => Some(hint)
                                     case RetryWithJitteredHint(hint) => Some(hint)
                                     case _ => None
  {
  }

  lemma DeadlineKeepsHint(cfg: Config, f: Flow, step: BackoffStep, r: FailureInputs)
    ensures FixDeadline(cfg, f, step, r).Go? ==> FixDeadline(cfg, f, step, r).flow.hint == f.hint
  {
  }

  /** The hint is published as the rule gave it, jittered or not, and without a hint none is. */
  lemma PublishedHint(cfg: Config, f: Flow, failure: Failure, r: FailureInputs)
    requires f.budget.active.Some? && RecordFailureStep(cfg, f, failure, r).Go?
    ensures RecordFailureStep(cfg, f, failure, r).flow.hint ==
              match Judge(r.rules, 0).decision
              case RetryWithHint(hint) => Some(hint)
              case RetryWithJitteredHint(hint) => Some(hint)
              case _ => None
  {
    DecisionStage(cfg, f, failure, r);
    var observed := ObserveFailure(Failed(f, failure, r.completion), failure, r);
    var decided := Decide(cfg, observed.flow, failure, r);
    ScheduledHint(cfg, decided.flow, decided.value, r);
    var scheduled := Schedule(cfg, decided.flow, decided.value, r);
    DeadlineKeepsHint(cfg, scheduled.flow, scheduled.value, r);
  }

  lemma PlainOwnDelay(cfg: Config, index: nat, draws: Draws)
    requires Validated(cfg.policy) && cfg.arithmetic == Exact() && cfg.policy.jitter.NoJitter? && index >= 1
    requires cfg.policy.strategy.Exponential?
    ensures var p := cfg.policy.strategy;
            var grown := Round(Growth(p.initial, p.multiplier, index - 1));
            OwnDelay(cfg, index, draws) == if grown <= p.max then grown else p.max
  {
    var p := cfg.policy.strategy;
    ExponentialExact(p.initial, p.multiplier, p.max, index);
  }

  /**
   In exact arithmetic, without jitter and without a hint, the retry at index n of an exponential
   policy waits the initial delay times the multiplier to the power n - 1, up to the maximum and the cap.
   */
  lemma PlainExponentialDelay(cfg: Config, f: Flow, failure: Failure, r: FailureInputs)
    requires f.budget.active.Some? && RecordFailureStep(cfg, f, failure, r).Go?
    requires Validated(cfg.policy) && cfg.arithmetic == Exact() && cfg.policy.jitter.NoJitter?
    requires cfg.policy.strategy.Exponential?
    requires Judge(r.rules, 0).decision.Retry? || Judge(r.rules, 0).decision.UseDefault?
    ensures var p, n := cfg.policy.strategy, NextIndex(f.retryIndex);
            var grown := Round(Growth(p.initial, p.multiplier, n - 1));
            var delay := RecordFailureStep(cfg, f, failure, r).flow.nextDelay;
            delay.Some? && delay.value == AtMost(cfg.policy.limit, if grown <= p.max then grown else p.max)
  {
    PublishedDelay(cfg, f, failure, r);
    PlainOwnDelay(cfg, NextIndex(f.retryIndex), r.draws);
  }
}
