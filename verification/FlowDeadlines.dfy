/**
 Deadline arithmetic: the absolute deadlines the flow prepares, compared with unbounded
 arithmetic on the samples they were prepared from.
 */
module FlowDeadlines {
  import opened Options
  import opened Time
  import opened Accounting
  import opened FlowModel

  predicate Timed(cfg: Config) { cfg.attemptTimeout.Some? || cfg.flowTimeout.Some? }

  /** The configuration of a facade without hard timeouts. */
  function Untimed(cfg: Config): Config { cfg.(attemptTimeout := None, flowTimeout := None) }

  function FlowEnd(cfg: Config, startedAt: Instant): int
    requires cfg.flowTimeout.Some?
  {
    startedAt.at + cfg.flowTimeout.value
  }

  /**
   The backoff deadline is the earlier of sample + delay and the flow deadline, computed
   without overflow whenever the flow deadline is representable; without a flow timeout it
   fails exactly when the sum is not representable. Before the flow deadline it never lies
   before the sample, and it equals the sample exactly for a zero delay.
   */
  lemma BackoffDeadlineExact(cfg: Config, startedAt: Instant, now: Instant, delay: Duration)
    requires startedAt.domain == now.domain
    ensures BackoffDeadline(cfg, startedAt, now, delay).Ok? <==>
              (if cfg.flowTimeout.Some? then FlowEnd(cfg, startedAt) <= MAX_DURATION
               else now.at + delay <= MAX_DURATION)
    ensures BackoffDeadline(cfg, startedAt, now, delay).Ok? ==>
              var due := BackoffDeadline(cfg, startedAt, now, delay).value;
              && due.domain == now.domain
              && (cfg.flowTimeout.None? ==> due.at == now.at + delay)
              && (cfg.flowTimeout.Some? && now.at + delay >= FlowEnd(cfg, startedAt) ==>
                   due.at == FlowEnd(cfg, startedAt))
              && (cfg.flowTimeout.Some? && now.at + delay < FlowEnd(cfg, startedAt) ==> due.at == now.at + delay)
              && (cfg.flowTimeout.None? || now.at < FlowEnd(cfg, startedAt) ==>
                   now.at <= due.at && (due == now <==> delay == 0))
  {
  }

  /** What a plan prepared from the sample `now` of flow `f` promises. */
  ghost predicate PlanCoherent(cfg: Config, f: Flow, plan: Option<Timeout>) {
    && (plan.None? <==> !Timed(cfg))
    && (plan.Some? ==>
          var t, now, startedAt := plan.value, f.budget.sampledAt, f.budget.startedAt;
          && t.deadline.domain == now.domain
          && t.deadline.at == now.at + t.duration
          && f.hardTimeout == Some(t.duration)
          && (cfg.attemptTimeout.Some? ==> t.duration <= cfg.attemptTimeout.value)
          && (cfg.flowTimeout.Some? ==> t.deadline.at <= FlowEnd(cfg, startedAt))
          && (t.scope.AttemptScope? ==> cfg.attemptTimeout == Some(t.duration))
          && (t.scope.FlowScope? ==> cfg.flowTimeout.Some? && t.deadline.at == FlowEnd(cfg, startedAt)
                                     && (cfg.attemptTimeout.Some? ==> t.duration < cfg.attemptTimeout.value)))
  }

  /** Whether the limit that wins the selection has a representable deadline. */
  ghost predicate DeadlineRepresentable(cfg: Config, f: Flow, now: Instant) {
    match SelectTimeout(cfg.attemptTimeout, FlowRemaining(cfg, f))
    case None => true
    case Some((d, AttemptScope)) => now.at + d <= MAX_DURATION
    case Some((_, FlowScope)) => cfg.flowTimeout.Some? && FlowEnd(cfg, f.budget.startedAt) <= MAX_DURATION
  }

  /** Preparing at an open gate succeeds exactly when the deadline is representable, and fixes a coherent plan. */
  lemma PreparedPlanCoherent(cfg: Config, f: Flow)
    requires Inv(f.budget) && !FlowExpired(cfg, f)
    ensures var s := PrepareAttemptStep(cfg, f, f.budget.sampledAt);
            && (s.Go? <==> DeadlineRepresentable(cfg, f, f.budget.sampledAt))
            && (s.Go? ==> s.flow == f.(hardTimeout := s.flow.hardTimeout) && PlanCoherent(cfg, s.flow, s.value))
            && (s.Stop? ==> s.error.reason == InfrastructureFailed(ClockFailed))
  {
  }

  /**
   Committing a timed plan: it is refused as timed out exactly when the sample reaches the
   plan's deadline, always with the plan's scope, and otherwise the flow timeout gate cannot fire.
   */
  lemma TimedCommit(cfg: Config, f: Flow, plan: Option<Timeout>, b: Boundary)
    requires Inv(f.budget) && PlanCoherent(cfg, f, plan) && plan.Some? && Coherent(f.budget, b.now)
    ensures var s := CommitStep(cfg, f, plan, b);
            && (b.now.at >= plan.value.deadline.at <==> s.Stop? && s.error.reason.TimedOut?)
            && (b.now.at >= plan.value.deadline.at ==> s.error.reason == TimedOut(plan.value.scope))
            && (b.now.at < plan.value.deadline.at ==> !FlowExpired(cfg, At(f, b.now)))
            && (s.Go? <==>
                  b.now.at < plan.value.deadline.at && !b.cancelled && LimitAfter(Sampled(f.budget, b.now), 0).None?)
            && (s.Go? ==> s.flow.budget.active == Some(b.now) && b.now.at < f.budget.sampledAt.at + plan.value.duration)
  {
  }
}
