# Verified model of the retry execution engine

This project models how a retry flow is executed — admission gates, attempts, failure handling,
backoff, hard deadlines, cancellation, worker threads — and proves properties of it.
`dafny verify dfyconfig.toml` checks everything.

## What is modelled

**Environment.** A monotonic instant is a clock domain and a duration since its origin; reading a
duration fails on another domain or on a regressing sample, and adding fails above the largest
`Duration`. Nothing is assumed about the environment: clock samples may be invalid at every
boundary, callbacks and rules may panic, the cancellation flag may read either way each time,
operations may return anything. All of these answers are universally quantified inputs, grouped
per controller operation (`BeforeInputs`, `FailureInputs`, `Boundary`) and per loop iteration
(rows of a script).

**Flow controller.** `FlowController` holds the mutable `RetryFlowState` and `RetryFlowController`;
`Accounting` and `Backoff` hold the mutable budget and backoff states beneath them. Every method
performs the program's own sequence of updates and early returns and is proved equal to a
specification function in `FlowModel`, outcome and whole new state alike. What those functions do
is stated again in flat tables that use no intermediate state: `AdmissionTable` when an attempt is
announced, prepared and committed, `FailureTable` how a recorded failure ends, `DelayTable` which
delay it publishes, `CompletionTable` which sample ends what and which times are reported.
`FlowDeadlines` holds the deadline arithmetic, `FlowRuns` the invariants and theorems over every run
of any driver, `WorkLog` the intervals a run accounts for, and `ObserverProtocol` the exact order and
content of what observers, rules and operations see.

**Drivers.** `Driving` is the loop all facades share. The same-thread facade (`RetryLoop`,
`RetryFacade`), the asynchronous one (`AsyncFacade`) and the worker one (`WorkerFacade`) are
classes whose loops are proved to be exactly the specified runs; `TimedLoop` and `TimedSteps` are
what the last two have in common, and `Completion` is the notification that follows every run.
`RetrySession` is the externally driven phase machine, and `SessionRefinesLoop` proves, from the
first call of an owner to the last, that it behaves like the loop. `FacadeRuns` shows that whatever
a facade does is a run of the controller, and `FacadeTheorems` restates the theorems about
controller runs on what the facades return. `LaunchTable` says when each facade calls its operation,
and `OutcomeTable` what each outcome of an attempt and of a wait comes to.

**Concurrent protocols.** `WorkerProtocol` and `CancellationProtocol` are state machines over
interleaved atomic steps: any number of futures and cancelling callers, respectively one calling
thread, its gated worker, the reaper and the sources of readiness. `WorkerSafety` holds the
invariants and theorems of the former, and `WorkerWait` the event loop and cleanup of its calling
thread as sequential methods, with the proof that every interleaving runs them. `Wakers` and
`CancellationToken` are the objects behind the latter, and their methods are proved to be its
steps.

**Whole worker flows.** `SharedSlot` puts any number of worker attempts beside one another, with
the slot for the success value that they share: a thread of an earlier attempt may take its steps
at any later moment. `WorkerFlow` adds the controller, so that its runs interleave the calling
thread of a flow with all threads of all its attempts. `WorkerFlowRuns` proves that no such run
panics, that each ends exactly as the sequential loop of `WorkerFacade` does on what its attempts
reported, that the operation is entered once per counted attempt over all threads, and that a value
returned is the one of the last admitted attempt.

**Smaller parts.** `Callbacks` (control observers, the panics of completion observers, rules),
`Selection` (which readiness decides an attempt or a wait; the facades poll and wait with it),
`BudgetTokens` (the public budget with linear attempt tokens, over runs of several budgets).

## Reading notes

- Precedence is modelled as written: the entry and commit gates test the flow timeout before
  cancellation, while after callbacks cancellation is tested first.
- A clock failure while an attempt is being completed ends the flow with the attempt still active
  in its budget; the invariants of a stopped flow allow that.
- The attempt limit is the one limit that the gates before an attempt can never report in a run,
  although they test it (`FlowRuns.GatesSpareAttempts`, `FlowRuns.AttemptLimitOnlyAfterFailure`).
- For a timed commit the later flow timeout gate is redundant (`FlowDeadlines.TimedCommit`).
- `WorkerChannelClosed` is a branch of the worker loop that no interleaving reaches
  (`WorkerSafety.ReturnedOutcome`); the facade keeps the branch.
- A worker that is reported as still running may write its success value after the attempt has
  returned. That can happen if and only if cleanup has a bound and the attempt can be cancelled or
  timed out (`WorkerSafety.LateWriteExactly`). It always ends the flow, and the slot is not read
  afterwards (`SharedSlot.OnlyLastWrites`, `WorkerFlowRuns.SuccessIsOfLastAttempt`).
- The two waits before a retry differ in one case only, stated exactly in `Selection.WaitsAgree`.

## Model

| member | source | states |
|---|---|---|
| `Backoff.Interpolate` | src/backoff/backoff_policy.rs:613-626 | an interpolated delay stays in its interval and meets both end points exactly, for any rounding |
| `Backoff.StepBounds` | src/backoff/backoff_policy.rs:298-412 | for every validated policy, request, sample and rounding: the effective delay is the capped uncapped one, base within the strategy and the initial delay up to the first index, full jitter only shortens, a minimum hint survives up to the cap, a preferred hint is used up to the cap, an ignored hint has no influence, the cap always holds |
| `Backoff.ShortcutsAgree` | src/backoff/backoff_policy.rs:571-581 | the shortcuts for the first index, a zero initial delay and a multiplier of one give what the general formula gives |
| `Backoff.PowGrows` | src/backoff/backoff_policy.rs:571-581 | powers of a multiplier of at least one never shrink with the exponent |
| `Backoff.GrownOrder` | src/backoff/backoff_policy.rs:571-581 | rounding and capping keep the order of two growth steps |
| `Backoff.ExponentialGrowth` | src/backoff/backoff_policy.rs:571-581 | in exact arithmetic the exponential delay never shrinks with the index, stays between initial and maximum, and once at the maximum stays there |
| `Backoff.ExponentialExact` | src/backoff/backoff_policy.rs:571-581 | in exact arithmetic the delay of index n is the initial one times the multiplier to the power n - 1, rounded, and the maximum once that is beyond it |
| `Backoff.InterpolateExact` | src/backoff/backoff_policy.rs:613-626 | in exact arithmetic an interpolated delay lies at the sampled fraction of its interval, rounded |
| `Backoff.UniformExact` | src/backoff/backoff_policy.rs:298-310 | likewise the uniform base delay |
| `Backoff.FullJitterExact` | src/backoff/backoff_policy.rs:395-412 | likewise full jitter, between nothing and the delay |
| `Backoff.BoundedJitterExact` | src/backoff/backoff_policy.rs:395-412 | likewise bounded jitter, between the two scaled ends |
| `Backoff.BoundedJitterRange` | src/backoff/backoff_policy.rs:298-412 | in exact arithmetic bounded jitter stays between (1 - ratio) and (1 + ratio) times the base delay, an interval around it whose ends the extreme samples meet |
| `Backoff.BackoffState.Next` | src/backoff/backoff_state.rs:96-101 | the index advances and saturates, and the step returned is the policy resolved at the new index |
| `Backoff.BackoffState.Reset` | src/backoff/backoff_state.rs:105-107 | the sequence starts over at index zero |
| `Accounting.DisjointTimeFits` | src/budget/internal/retry_budget_state.rs:188-221 | disjoint attempt intervals inside a span sum to at most the span |
| `Accounting.TimeConserved` | src/budget/internal/retry_budget_state.rs:188-221 | operation time is the exact sum of disjoint attempt intervals and, with the running attempt, never exceeds the elapsed time |
| `Accounting.BegunInv` | src/budget/internal/retry_budget_state.rs:188-195 | beginning an attempt keeps the accounting invariant |
| `Accounting.FinishedInv` | src/budget/internal/retry_budget_state.rs:210-221 | finishing keeps the invariant and adds the attempt duration exactly: the saturating addition never saturates |
| `Accounting.FinishedExact` | src/budget/internal/retry_budget_state.rs:210-221 | finishing adds exactly the time between the admission sample and its own, ends the attempt at its own sample and changes nothing else |
| `Accounting.RetryBudgetState.constructor` | src/budget/internal/retry_budget_state.rs:54-64 | a new state starts at its first sample with nothing counted |
| `Accounting.RetryBudgetState.SnapshotAt` | src/budget/internal/retry_budget_state.rs:121-129 | observing a sample fails exactly when it is in another clock domain or regresses, and changes nothing |
| `Accounting.RetryBudgetState.CurrentSnapshot` | src/budget/internal/retry_budget_state.rs:104-107 | the snapshot at the last accepted sample always exists |
| `Accounting.RetryBudgetState.RetryLimit` | src/budget/internal/retry_budget_state.rs:140-159 | attempts, then operation time, then total time plus the proposed delay |
| `Accounting.RetryBudgetState.Refresh` | src/budget/internal/retry_budget_state.rs:172-176 | commits a coherent sample; an incoherent one changes nothing |
| `Accounting.RetryBudgetState.BeginAttempt` | src/budget/internal/retry_budget_state.rs:188-195 | counts the attempt and marks it active at the sample |
| `Accounting.RetryBudgetState.FinishAttempt` | src/budget/internal/retry_budget_state.rs:210-221 | completes the active attempt; with an incoherent sample it stays active and nothing changes |
| `BudgetTokens.RetryBudget.Snapshot` | src/budget/retry_budget.rs:100-102 | reads at a fresh sample, or reports the clock |
| `BudgetTokens.RetryBudget.BeginAttempt` | src/budget/retry_budget.rs:114-126 | hands out a token exactly when idle, coherent and within all limits, or names the first obstacle: attempt in progress, clock, limit |
| `BudgetTokens.RetryBudget.FinishAttempt` | src/budget/retry_budget.rs:142-151 | only the token of the active attempt finishes it, and the snapshot has the time since its admission; a foreign or stale one, or a rejected sample, changes nothing |
| `BudgetTokens.RetryBudget.CheckRetryAfter` | src/budget/retry_budget.rs:165-171 | accepts a proposed delay exactly when idle, coherent and within all limits with the delay added; the same obstacles otherwise |
| `BudgetTokens.RejectionExact` | src/budget/retry_budget.rs:114-171 | an attempt or a delay is accepted exactly when none is active, the sample follows the last one, an attempt is left, the operation time is below its budget and the elapsed time with the delay is below the total budget; otherwise the first obstacle is named |
| `BudgetTokens.ObservedExact` | src/budget/retry_budget.rs:114-171 | a refused call moves the last sample to its own, unless that is unusable or an attempt is active, and changes nothing else |
| `BudgetTokens.LinearRun` | src/budget/retry_budget.rs:114-151 | in every run over any number of budgets each live token is unique and names the single active attempt of its budget |
| `BudgetTokens.TokensWithinLimits` | src/budget/retry_budget.rs:114-126 | in every run a token is handed out exactly within all limits at its own sample |
| `BudgetTokens.TokensAddTheirTime` | src/budget/retry_budget.rs:142-151 | in every run a token that finishes its attempt adds the time between its own two samples |
| `BudgetTokens.FinishVerdict` | src/budget/retry_budget.rs:142-151 | a foreign token changes no budget, an own token always owns the active attempt, and the token is gone afterwards |
| `BudgetTokens.LosingATokenOrphans` | src/budget/retry_budget.rs:142-151 | dropping a token, or spending it elsewhere or on a rejected sample, leaves its budget active without any token |
| `BudgetTokens.OrphanedForever` | src/budget/retry_budget.rs:114-126 | such a budget never changes again, so it never admits again |
| `Callbacks.TryEach` | src/observer/internal/retry_observers.rs:231-246 | control observers stop at the first panic, which is reported with its index |
| `Callbacks.DiagnosticsExact` | src/observer/internal/retry_observers.rs:194-211 | the collected diagnostics are exactly the panicking observers, in increasing index order |
| `Callbacks.Judge` | src/rule/internal/retry_rules.rs:89-108 | the verdict is the first decisive rule or the first panic, and delegation exactly when no rule is decisive |
| `Callbacks.TryDecide` | src/rule/internal/retry_rules.rs:89-108 | the rule loop returns that verdict |
| `FlowController.RetryFlowState.FlowTimedOut` | src/executor/internal/flow/retry_flow_state.rs:79-82 | the flow has expired exactly when the elapsed time reaches the flow timeout |
| `FlowController.RetryFlowState.FlowRemaining` | src/executor/internal/flow/retry_flow_state.rs:114-117 | the time left, saturating at zero |
| `FlowController.RetryFlowState.FinishForInfrastructure` | src/executor/internal/flow/retry_flow_state.rs:274-280 | finishes an active attempt or refreshes an inactive budget; an incoherent sample changes nothing |
| `FlowController.RetryFlowState.NextBackoff` | src/executor/internal/flow/retry_flow_state.rs:289-296 | advances the index and resolves the policy with the hint of the decision |
| `FlowController.RetryFlowController.constructor` | src/executor/internal/flow/retry_flow_controller.rs:83-102 | a new controller holds a fresh flow |
| `FlowController.RetryFlowController.CurrentContext` | src/executor/internal/flow/retry_flow_controller.rs:565-567 | the context is the accounting plus the current attempt, timeout, delay and hint |
| `FlowController.RetryFlowController.CallbackFailedAfterRefresh` | src/executor/internal/flow/retry_flow_controller.rs:809-820 | a callback panic stays the reported cause even when its own clock sample is unusable |
| `FlowController.RetryFlowController.RefreshOrError` | src/executor/internal/flow/retry_flow_controller.rs:646-651 | a rejected sample ends the flow with a clock failure and no attempt overlay |
| `FlowController.RetryFlowController.RefreshAfterControlCallback` | src/executor/internal/flow/retry_flow_controller.rs:670-682 | after callbacks the clock is checked first, then cancellation |
| `FlowController.RetryFlowController.PassGates` | src/executor/internal/flow/retry_flow_controller.rs:168-176 | flow timeout, then cancellation, then the continuation limit |
| `FlowController.RetryFlowController.CheckBackoffReady` | src/executor/internal/flow/retry_flow_controller.rs:129-141 | one non-blocking look at the backoff: clock, cancellation, deadline |
| `FlowController.RetryFlowController.BeforeAttempt` | src/executor/internal/flow/retry_flow_controller.rs:161-198 | gates, announcement of the attempt, observers and the gates again, with every exit and the whole new state |
| `FlowController.RetryFlowController.SelectedTimeout` | src/executor/internal/flow/retry_flow_controller.rs:596-611 | the shorter of attempt timeout and flow time left, with its absolute deadline |
| `FlowController.RetryFlowController.PrepareAttempt` | src/executor/internal/flow/retry_flow_controller.rs:218-229 | fixes the effective timeout or ends with a clock failure |
| `FlowController.RetryFlowController.CommitAttempt` | src/executor/internal/flow/retry_flow_controller.rs:248-266 | commits an untimed attempt behind the gates |
| `FlowController.RetryFlowController.CommitPreparedAttempt` | src/executor/internal/flow/retry_flow_controller.rs:286-316 | commits a timed attempt: prepared deadline first, then the gates |
| `FlowController.RetryFlowController.FinishSuccess` | src/executor/internal/flow/retry_flow_controller.rs:447-454 | accounts for a success and clears the overlay |
| `FlowController.RetryFlowController.RecordFailure` | src/executor/internal/flow/retry_flow_controller.rs:340-429 | accounts for a failure, consults observers and rules, selects and publishes the backoff and fixes its deadline, with every exit and the whole new state |
| `FlowController.RetryFlowController.DecideRetry` | src/executor/internal/flow/retry_flow_controller.rs:362-397 | the rule verdict or the default for the kind of failure |
| `FlowController.RetryFlowController.SelectBackoff` | src/executor/internal/flow/retry_flow_controller.rs:398-412 | the selected step is published before the gates and the observers see it |
| `FlowController.RetryFlowController.PlanBackoff` | src/executor/internal/flow/retry_flow_controller.rs:413-428 | the boundary after the observers, the gates with the delay, and the absolute deadline |
| `FlowController.RetryFlowController.RecordActiveInfrastructureFailure` | src/executor/internal/flow/retry_flow_controller.rs:468-485 | ends the flow with the attempt still named; an unusable sample becomes the cause |
| `FlowController.RetryFlowController.RecordInactiveInfrastructureFailure` | src/executor/internal/flow/retry_flow_controller.rs:500-518 | ends the flow without the attempt overlay; an unusable sample becomes the cause |
| `FlowController.RetryFlowController.RecordAttemptCancellation` | src/executor/internal/flow/retry_flow_controller.rs:534-539 | finishes the attempt and reports cancellation during it |
| `FlowController.RetryFlowController.RecordBackoffCancellation` | src/executor/internal/flow/retry_flow_controller.rs:554-559 | reports cancellation during the wait |
| `FlowDeadlines.BackoffDeadlineExact` | src/executor/internal/flow/retry_flow_state.rs:163-180 | the backoff deadline is the earlier of sample plus delay and the flow deadline in unbounded arithmetic, defined exactly when that is representable, never before the sample, and equal to it exactly for a zero delay |
| `FlowDeadlines.PreparedPlanCoherent` | src/executor/internal/flow/retry_flow_controller.rs:596-611 | preparing succeeds exactly when the winning deadline is representable; the deadline is the sample plus the duration and never beyond the flow deadline |
| `FlowDeadlines.TimedCommit` | src/executor/internal/flow/retry_flow_controller.rs:286-316 | a timed commit is refused as timed out exactly at or after its deadline, always with the scope of the plan; before it the flow timeout gate cannot fire |
| `FailureTable.DecisionStage` | src/executor/internal/flow/retry_flow_controller.rs:340-397 | observer and rule stages agree with the rows of the table up to the decision |
| `FailureTable.ScheduleStage` | src/executor/internal/flow/retry_flow_controller.rs:398-412 | selection and publication agree with the scheduling rows |
| `FailureTable.DeadlineStage` | src/executor/internal/flow/retry_flow_controller.rs:413-428 | the last boundary agrees with the remaining rows |
| `FailureTable.TableDecides` | src/executor/internal/flow/retry_flow_controller.rs:340-429 | recording a failure ends exactly as the flat priority table over samples, panics, cancellation, decision, failure kind, fallback, timeout and limits says; every terminal error keeps the failure and reports the last accepted sample, the delay published by then, and the attempt only for a panic of one of its callbacks |
| `FailureTable.RetryRespectsLimits` | src/executor/internal/flow/retry_flow_controller.rs:398-428 | a planned retry never bypasses the attempt limit, the operation budget, the total budget or the flow timeout |
| `FailureTable.FallbackOnlyForDelegatedErrors` | src/executor/internal/flow/retry_flow_controller.rs:374-397 | the fallback has no influence on timeouts, on panics, or once a rule has decided |
| `FailureTable.LastAttemptNeverRetries` | src/executor/internal/flow/retry_flow_controller.rs:398-428 | with every attempt used no retry is planned; the attempt limit is reported only then |
| `DelayTable.PublishedDelay` | src/executor/internal/flow/retry_flow_state.rs:289-296 | a planned retry publishes a plain hint as it is and a jittered one jittered with the sample of the hint, combined with the delay of the policy as the policy says, and cut at its cap |
| `DelayTable.PublishedHint` | src/executor/internal/flow/retry_flow_controller.rs:398-403 | the hint is published as the rule gave it |
| `DelayTable.PlainExponentialDelay` | src/backoff/backoff_policy.rs:298-412 | in exact arithmetic, without jitter and hint, the retry at index n of an exponential policy waits initial times multiplier to the power n - 1, up to maximum and cap |
| `AdmissionTable.BeforeDecides` | src/executor/internal/flow/retry_flow_controller.rs:161-198 | an attempt is announced exactly when both samples follow one another, no observer panics, no cancellation read is set and no limit is reached at either sample; otherwise the first row of a flat table names the reason, and the last accepted sample is reported |
| `AdmissionTable.EntryDecides` | src/executor/internal/flow/retry_flow_controller.rs:165-176 | a stop at the entry gates announces nothing and still reports what the last retry published |
| `AdmissionTable.NotificationDecides` | src/executor/internal/flow/retry_flow_controller.rs:178-197 | a stop after the announcement names the attempt only for a panic of its observer |
| `AdmissionTable.PrepareDecides` | src/executor/internal/flow/retry_flow_controller.rs:596-611 | preparing fixes the earlier of the two deadlines in unbounded time, ties to the attempt, and fails exactly when that is not representable |
| `AdmissionTable.CommitDecides` | src/executor/internal/flow/retry_flow_controller.rs:248-316 | with or without a plan, committing admits exactly when the sample follows the last one and lies before the deadline, no cancellation is set and no limit is reached; otherwise the first row names the reason |
| `CompletionTable.SuccessDecides` | src/executor/internal/flow/retry_flow_controller.rs:447-454 | a success is accounted for at its completion sample: operation, last attempt and total time up to it; refused exactly when it regresses |
| `CompletionTable.FailureDecides` | src/executor/internal/flow/retry_flow_controller.rs:340-429 | a failure is reported first of all with its attempt ended at the completion sample, and is what the flow keeps or its error names |
| `CompletionTable.CancellationDecides` | src/executor/internal/flow/retry_flow_controller.rs:534-539 | a cancelled attempt ends at its own sample, still named |
| `CompletionTable.BreakdownDecides` | src/executor/internal/flow/retry_flow_controller.rs:468-485 | an infrastructure failure of a running attempt ends it at its own sample, for its own reason |
| `CompletionTable.IdleBreakdownDecides` | src/executor/internal/flow/retry_flow_controller.rs:500-518 | one while nothing runs stops at its own sample for its own reason; an unusable sample makes it a clock failure |
| `CompletionTable.BackoffCancellationDecides` | src/executor/internal/flow/retry_flow_controller.rs:554-559 | likewise a cancellation during the wait |
| `CompletionTable.PollDecides` | src/executor/internal/flow/retry_flow_controller.rs:129-141 | a poll is ready exactly at or after the due instant; it stops on the clock first and then on cancellation |
| `FlowRuns.BeforeKept` | src/executor/internal/flow/retry_flow_controller.rs:161-198 | announcing an attempt keeps the flow invariant and leaves every gate open |
| `FlowRuns.CommitKept` | src/executor/internal/flow/retry_flow_controller.rs:248-316 | committing keeps the invariant and counts exactly one attempt |
| `FlowRuns.ObserveKept` | src/executor/internal/flow/retry_flow_controller.rs:340-360 | observing a failure keeps the invariant |
| `FlowRuns.ScheduleKept` | src/executor/internal/flow/retry_flow_controller.rs:398-412 | the published delay is the policy at the index of the failed attempt |
| `FlowRuns.RecordFailureKept` | src/executor/internal/flow/retry_flow_controller.rs:340-429 | after a failure either the flow has stopped with current accounting or a retry is planned from the last sample on |
| `FlowRuns.BreakDownKept` | src/executor/internal/flow/retry_flow_state.rs:274-280 | infrastructure failures keep the invariant |
| `FlowRuns.SucceedKept` | src/executor/internal/flow/retry_flow_controller.rs:447-454 | success keeps the invariant and returns the current context |
| `FlowRuns.PolledKept` | src/executor/internal/flow/retry_flow_controller.rs:129-141 | a poll of the backoff keeps the wait and answers ready exactly at or after the deadline |
| `FlowRuns.NextInv` | src/executor/internal/flow/retry_flow_controller.rs:67-862 | every operation a driver may issue keeps the invariant of the phase it leads to |
| `FlowRuns.RunInv` | src/executor/internal/flow/retry_flow_controller.rs:67-862 | every state of every run satisfies its phase invariant |
| `FlowRuns.ExpectationsHold` | src/executor/internal/flow/retry_flow_controller.rs:340-429 | no run of any driver reaches a panic of the controller: the expectations on the active attempt and on the recorded failure always hold |
| `FlowRuns.ContextsNeverDecrease` | src/executor/internal/flow/retry_flow_state.rs:207-222 | attempts and elapsed times never decrease across the contexts of a run, up to the terminal one |
| `FlowRuns.AdmissionSafety` | src/executor/internal/flow/retry_flow_controller.rs:161-316 | admissions are numbered 1, 2, 3, ...; each is within the attempt limit and strictly below every time limit at its own sample |
| `FlowRuns.TerminalCountsAdmissions` | src/executor/internal/flow/retry_flow_controller.rs:708-861 | the terminal context counts exactly the admissions that happened |
| `FlowRuns.RunConservesTime` | src/budget/internal/retry_budget_state.rs:188-221 | in every state of every run the operation time is the exact sum of disjoint attempts |
| `WorkLog.RunRecordsWork` | src/executor/internal/flow/retry_flow_controller.rs:248-539 | in every state of every run the completed intervals are exactly those from a commit that admitted to the command that ended its attempt, and the operation time is their sum |
| `FlowRuns.OnlyCommitAdmits` | src/executor/internal/flow/retry_flow_controller.rs:248-316 | attempts are counted by successful commits and nothing else |
| `FlowRuns.ClosedNeverAdmits` | src/executor/internal/flow/retry_flow_controller.rs:161-316 | with a zero budget or a zero hard timeout nothing is ever admitted |
| `FlowRuns.GatesSpareAttempts` | src/executor/internal/flow/retry_flow_controller.rs:161-316 | neither gate reports the attempt limit while an attempt is left |
| `FlowRuns.AttemptLimitOnlyAfterFailure` | src/executor/internal/flow/retry_flow_controller.rs:398-428 | the attempt limit ends a run only while recording a failure, with every attempt used and that failure kept |
| `FlowRuns.WaitingIndexSynchronised` | src/backoff/backoff_state.rs:96-101 | every wait goes back to one recorded failure with nothing but polls since; the backoff index equals the attempt count, and delay and hint are those of the policy at that index for the decision and the draws of that failure |
| `FlowRuns.AnnouncementClearsDelay` | src/executor/internal/flow/retry_flow_controller.rs:161-198 | before the next attempt what the previous one published is gone |
| `ObserverProtocol.BeforeInOrder` | src/executor/internal/flow/retry_flow_controller.rs:161-198 | announcing appends one event that names the next attempt with nothing of an earlier retry left, or stops before it |
| `ObserverProtocol.FailureInOrder` | src/executor/internal/flow/retry_flow_controller.rs:340-429 | a recorded failure appends report, judgement and publication in this order, all of them exactly when a retry is planned |
| `ObserverProtocol.PublicationInOrder` | src/executor/internal/flow/retry_flow_controller.rs:398-412 | observers see the step of this attempt and its delay in the context |
| `ObserverProtocol.RunInOrder` | src/executor/internal/flow/retry_flow_controller.rs:67-862 | in every state of every run the trace has the length its phase demands and is in order |
| `ObserverProtocol.EventsInOrder` | src/executor/internal/flow/retry_flow_controller.rs:67-862 | the i-th event of every run is the announcement, admission, failure report, judgement or publication that place i demands, with the ordinal, attempt count, delay and failure that belong there |
| `ObserverProtocol.SuccessEndsWithAdmission` | src/executor/internal/flow/retry_flow_controller.rs:447-454 | a successful run ends with the admission of its last attempt |
| `Driving.DriveBounded` | src/executor/retry.rs:170-200 | a facade loop runs at most one iteration per attempt left |
| `Driving.DriveCounts` | src/executor/retry.rs:170-200 | the operation is called exactly as often as attempts are counted |
| `Driving.DriveKeeps` | src/executor/retry.rs:170-200 | what every iteration carries over holds at the end of the run |
| `Driving.DriveSucceeds` | src/executor/retry.rs:170-200 | a success is linked to the last iteration |
| `RetryLoop.IterateCounts` | src/executor/retry.rs:170-200 | one iteration counts an attempt exactly when it calls the operation, and another one follows only with an attempt left |
| `RetryLoop.IterateKept` | src/executor/retry.rs:170-200 | one iteration keeps the flow invariant; a planned wait starts at the last sample |
| `RetryLoop.LoopConcludes` | src/executor/retry.rs:161-202 | the terminal context of a run is current |
| `RetryLoop.RunSound` | src/executor/retry.rs:161-202 | every run ends within the attempt limit, calls the operation as often as its terminal context counts, and succeeds only with the value of its last operation |
| `LaunchTable.AdmitDecides` | src/executor/retry.rs:172-173 | the same-thread facade admits exactly when announcing and committing do, and stops for the first reason of either |
| `LaunchTable.CalledExactly` | src/executor/retry.rs:170-200 | one pass of the loop calls the operation exactly then |
| `OutcomeTable.OperationDecides` | src/executor/retry.rs:176-198 | a returned value ends the flow with it and its time, an error is a failure with that very code, and what follows a planned retry is decided by its wait alone |
| `RetryFacade.TryAdmit` | src/executor/retry.rs:172-173 | before-attempt processing and commit, as one step |
| `RetryFacade.Conclude` | src/executor/retry.rs:174-182 | success or failure of the operation, as one step |
| `RetryFacade.Retry.RunOnce` | src/executor/retry.rs:170-200 | one iteration on the controller does what the specified iteration does |
| `RetryFacade.Retry.RunInner` | src/executor/retry.rs:161-202 | the loop terminates with exactly the specified run |
| `RetryFacade.AwaitRetry` | src/executor/retry.rs:183-197 | a wait that did not elapse ends the flow; one that elapsed goes on |
| `RetryFacade.Retry.Run` | src/executor/retry_config.rs:175-185 | the loop, and then one notification per completion observer, in registration order, with the frozen result, after the last event of the flow; only the panics of the observers are added |
| `Completion.CompletionObservers.NotifyEach` | src/observer/internal/retry_observers.rs:194-211 | every completion observer is invoked once, in order, whoever panics before it, and every panic is collected |
| `Completion.Complete` | src/executor/retry_config.rs:175-185 | the frozen result goes to every completion observer once and comes back with their panics only |
| `Completion.NotifiedExactlyOnce` | src/observer/internal/retry_observers.rs:194-211 | each registered observer, and nobody else, is notified exactly once, at its own position |
| `RetrySession.BeginKept` | src/executor/retry_session.rs:178-216 | beginning keeps the session invariant, never admits before the due instant or on a cancelled poll, and answers not-yet with the due instant unchanged |
| `RetrySession.RecordKept` | src/executor/retry_session.rs:241-270 | recording keeps the session invariant and leads to waiting or to the end |
| `LaunchTable.BeginDecides` | src/executor/retry_session.rs:178-216 | beginning starts an attempt exactly when the wait is over and nothing stands in the way, answers not yet exactly before the due instant, and otherwise ends the session for the first reason |
| `LaunchTable.RecordDecides` | src/executor/retry_session.rs:241-270 | recording answers with the value and its own time, the planned deadline, or the terminal error |
| `RetrySession.RetrySession.constructor` | src/executor/retry_session.rs:129-138 | a new session is ready and has notified nobody |
| `RetrySession.RetrySession.BeginAttempt` | src/executor/retry_session.rs:178-216 | the phase machine does what the specified step does; observers are notified exactly when the flow ends |
| `RetrySession.RetrySession.RecordResult` | src/executor/retry_session.rs:241-270 | likewise for results |
| `RetrySession.RetrySession.Finish` | src/executor/retry_config.rs:175-185 | reaching the end notifies every completion observer once, after the last event of the flow |
| `SessionRefinesLoop.MatchedPolls` | src/executor/internal/flow/retry_flow_controller.rs:129-141 | any number of early polls and a last one amount to the wait of the loop |
| `SessionRefinesLoop.AdmissionForgetsPolls` | src/executor/internal/flow/retry_flow_controller.rs:161-198 | the sample of a poll leaves no mark on a later admission |
| `SessionRefinesLoop.OwnerTurnMeaning` | src/executor/retry_session.rs:178-270 | one turn of an owner that only calls the two session operations is one iteration |
| `SessionRefinesLoop.OwnerRunsSession` | src/executor/retry_session.rs:178-270 | such an owner always finishes, exactly as the session run says |
| `SessionRefinesLoop.OwnerRunIsSession` | src/executor/retry_session.rs:178-270 | so does the owner of a new session, whose first begin may be refused |
| `SessionRefinesLoop.IterationSimulated` | src/executor/retry_session.rs:178-270 | one session iteration simulates one loop iteration |
| `SessionRefinesLoop.SessionSimulates` | src/executor/retry_session.rs:178-270 | the simulation extends to the rest of the run |
| `SessionRefinesLoop.SessionMatchesLoop` | tests/executor/retry_session_tests.rs:285-306 | a session polled any number of times early has the same events, the same terminal result and the same operation calls as the loop |
| `SessionRefinesLoop.SessionBehavesLikeLoop` | tests/executor/retry_session_tests.rs:285-306 | an owner of a new session that only calls its two operations, polling early as often as it likes, ends with the flow, the terminal result and the operation calls of the loop, and with every completion observer notified exactly once |
| `FacadeRuns.IterationIsPiece` | src/executor/retry.rs:170-200 | one iteration of the same-thread loop is a piece of a controller run |
| `FacadeRuns.LoopIsRun` | src/executor/retry.rs:161-202 | the whole same-thread loop is a run of the controller that ends in the phase of its result |
| `FacadeRuns.TimedIterationIsPiece` | src/executor/worker_retry.rs:306-405 | one timed iteration is a piece of a controller run |
| `FacadeRuns.TimedLoopIsRun` | src/executor/async_retry.rs:319-386 | the whole timed loop is a run of the controller that ends in the phase of its result |
| `FacadeRuns.BeginIsPiece` | src/executor/retry_session.rs:178-216 | beginning an attempt of a session is a piece of a controller run |
| `FacadeRuns.RecordIsPiece` | src/executor/retry_session.rs:241-270 | recording a result of a session is a piece of a controller run |
| `FacadeRuns.SessionIsRun` | src/executor/retry_session.rs:178-270 | the whole session, abandoned or not, is a run of the controller that ends in the phase of its result |
| `FacadeTheorems.EndingIsRun` | src/executor/internal/flow/retry_flow_controller.rs:67-862 | the states and commands of that run |
| `FacadeTheorems.EndingKeepsPromises` | src/executor/internal/flow/retry_flow_controller.rs:67-862 | events in order, admissions numbered and within every limit, time conserved, nothing admitted by a closed configuration, the attempt limit only with every attempt used |
| `FacadeTheorems.LoopReportsLimit` | src/executor/internal/flow/retry_flow_controller.rs:398-428 | a loop that used up its attempts reports the error of its last operation |
| `FacadeTheorems.RetryKeepsPromises` | src/executor/retry.rs:161-202 | all of this for the same-thread facade; with a zero budget it calls no operation |
| `FacadeTheorems.TimedFacadesKeepPromises` | src/executor/async_retry.rs:319-386 | all of this for the asynchronous and the worker facade; with a zero budget or a zero hard timeout they call no operation |
| `FacadeTheorems.WorkerFlowKeepsPromises` | src/executor/worker_retry.rs:290-408 | all of this for every interleaving of a worker flow; with a zero budget or a zero hard timeout no thread enters the operation |
| `FacadeTheorems.SessionKeepsPromises` | src/executor/retry_session.rs:178-270 | all of this for the session, however it is polled and also when it is abandoned |
| `TimedLoop.TimedIterateCounts` | src/executor/worker_retry.rs:306-405 | one timed iteration counts an attempt exactly when its operation was admitted |
| `TimedLoop.TimedIterateKept` | src/executor/worker_retry.rs:306-405 | one timed iteration keeps the flow invariant |
| `TimedLoop.InterruptedKept` | src/executor/worker_retry.rs:347-388 | cancellation, timer failure, a lost channel and an abandoned worker end the flow with current accounting |
| `TimedLoop.TimedRunSound` | src/executor/async_retry.rs:319-386 | a run with hard deadlines ends within the attempt limit, counts its operations, and succeeds only with the value of its last attempt |
| `LaunchTable.LaunchDecides` | src/executor/worker_retry.rs:308-331 | an attempt with a hard deadline is launched exactly when announcing, preparing, registering, spawning and committing succeed, with the earlier deadline; otherwise the first of them names the reason |
| `LaunchTable.LaunchedExactly` | src/executor/async_retry.rs:338-352 | one iteration of the timed loop runs the operation exactly then |
| `TimedLoop.IterationsAgree` | src/executor/async_retry.rs:319-386 | without hard timeouts a timed iteration is an iteration of the same-thread loop |
| `TimedLoop.FacadesAgree` | src/executor/async_retry.rs:319-386 | without hard timeouts, while operations simply return, all facades have the same events, result and calls |
| `TimedSteps.TryTimedAdmit` | src/executor/worker_retry.rs:307-330 | announcement, preparation, timer registration, spawn and commit, in this order |
| `TimedSteps.SettleAttempt` | src/executor/worker_retry.rs:345-405 | every end of an attempt is accounted for as specified |
| `AsyncFacade.AsyncRetry.RunOnce` | src/executor/async_retry.rs:339-384 | one iteration on the controller, polling the attempt between admission and accounting and then the wait, does what the specified iteration does |
| `AsyncFacade.AsyncRetry.RunInner` | src/executor/async_retry.rs:319-386 | the asynchronous loop terminates with exactly the specified run |
| `AsyncFacade.AsyncRetry.Run` | src/executor/retry_config.rs:175-185 | the loop, and then one notification per completion observer with the frozen result, after the last event of the flow |
| `AsyncFacade.AsyncSucceedsWithLastValue` | src/executor/async_retry.rs:319-386 | a successful run returns the value that polling its last attempt selected |
| `OutcomeTable.AsyncOutcomeDecides` | src/executor/async_retry.rs:352-373 | an admitted asynchronous attempt is accounted for by the outcome polling selected: value, error code, timeout of the scope of the plan, cancellation, timer failure; cancelled during the attempt is reported exactly for a cancelled one with a coherent sample |
| `OutcomeTable.AsyncSleepDecides` | src/executor/async_retry.rs:374-386 | what follows a retry planned for it is decided by the sleep: next iteration, cancelled during backoff, or timer failure |
| `Selection.First` | src/executor/async_retry.rs:410-468 | the first poll cycle in which something is ready |
| `Selection.PollBoth` | src/executor/async_retry.rs:421-438 | operation, cancellation and timer are polled in this order until one is ready |
| `Selection.PollTimed` | src/executor/async_retry.rs:439-452 | the same without a token |
| `Selection.PollCancellable` | src/executor/async_retry.rs:453-465 | the same without a timer |
| `Selection.PollBare` | src/executor/async_retry.rs:466 | the operation alone |
| `Selection.ExecuteAttempt` | src/executor/async_retry.rs:410-468 | the four arms are one priority select in which absent inputs are never ready |
| `Selection.SelectionDeterministic` | src/executor/async_retry.rs:410-468 | the selection determines the outcome and the number of poll cycles |
| `Selection.AbsentNeverWins` | src/executor/async_retry.rs:410-468 | without a timer no outcome blames one; without a token none is a cancellation |
| `Selection.PollWait` | src/executor/internal/blocking/blocking_backoff.rs:65-78 | cancellation beats the timer in the first cycle where either is ready |
| `Selection.AwaitTimer` | src/executor/async_retry.rs:523-528 | the timer alone decides when there is no token |
| `Selection.Sleep` | src/executor/async_retry.rs:499-541 | the asynchronous wait, including the second look at the flag after an immediate yield |
| `Selection.WaitForBackoff` | src/executor/internal/blocking/blocking_backoff.rs:42-79 | the blocking wait |
| `Selection.WaitsAgree` | src/executor/async_retry.rs:499-541 | both waits select the same outcome, except exactly when cancellation arrives during an immediate yield |
| `Selection.ElapsedMeansFired` | src/executor/internal/blocking/blocking_backoff.rs:42-79 | a wait elapses only when its timer fired with no cancellation in or before that cycle |
| `Selection.WaitedByFirst` | src/executor/internal/blocking/blocking_backoff.rs:65-78 | deciding a wait cycle by cycle is the same as looking for the first cycle with a ready input |
| `Selection.TimedWaitExact` | src/executor/internal/blocking/blocking_backoff.rs:42-79 | a wait is stopped exactly when a flag it read was set, broken exactly when registration or the timer failed with no flag set, and elapses exactly when the timer fired with none set |
| `Selection.ImmediateWaitExact` | src/executor/async_retry.rs:499-512 | an immediate wait never breaks; the asynchronous one looks at the flag twice |
| `Selection.FiringNeverPends` | src/executor/internal/blocking/blocking_backoff.rs:42-79 | with a timer that fires at last every wait is decided |
| `Selection.DecidedByFirst` | src/executor/async_retry.rs:410-468 | deciding cycle by cycle is the same as looking for the first cycle with a ready input and taking its winner |
| `Selection.ExecutedIsDecided` | src/executor/async_retry.rs:410-468 | the four arms agree with the cycle-by-cycle decision |
| `Selection.ExecuteToEnd` | src/executor/async_retry.rs:410-468 | polling an operation that returns at last decides as specified |
| `Selection.CompletionWasPolled` | src/executor/async_retry.rs:410-468 | a successful outcome was returned by the operation in one of the poll cycles |
| `Wakers.FreeIdExists` | src/executor/internal/cancellation/waker_registry.rs:35-51 | unless every id is taken a first free id lies within one round per entry |
| `Wakers.FirstFreeUnique` | src/executor/internal/cancellation/waker_registry.rs:35-51 | the first free id is unique |
| `Wakers.WakerRegistry.Register` | src/executor/internal/cancellation/waker_registry.rs:35-51 | keeps a given id or allocates the first free one at or after the wrapping counter, within one round per entry and one more; no other entry changes |
| `Wakers.WakerRegistry.Unregister` | src/executor/internal/cancellation/waker_registry.rs:60-62 | removes that entry only |
| `Wakers.WakerRegistry.TakeAll` | src/executor/internal/cancellation/waker_registry.rs:70-72 | hands over every entry and empties the registry |
| `CancellationToken.RetryCancellationState.Cancel` | src/executor/internal/cancellation/retry_cancellation_state.rs:46-54 | only the first request drains, and it invokes each entry exactly once |
| `CancellationToken.RetryCancellationState.InsertEntry` | src/executor/internal/cancellation/retry_cancellation_state.rs:78-79 | the entry is inserted under the lock; its own or the first free id, and no other entry changes |
| `CancellationToken.RetryCancellationState.ObserveFlag` | src/executor/internal/cancellation/retry_cancellation_state.rs:80-82 | the second load of the flag takes the entry back if the flag is set by then |
| `CancellationToken.RetryCancellationState.Unregister` | src/executor/internal/cancellation/retry_cancellation_state.rs:93-95 | removes that entry only |
| `CancellationToken.RetryCancelled.LoadFlag` | src/executor/retry_cancelled.rs:76-94 | the first load is the protocol step of that load, in every state that agrees with the objects |
| `CancellationToken.RetryCancelled.InsertWaker` | src/executor/retry_cancelled.rs:76-94 | inserting the waker is the protocol step of the insertion |
| `CancellationToken.RetryCancelled.ConfirmEntry` | src/executor/retry_cancelled.rs:76-94 | the second load with its removal is the protocol step of the confirmation |
| `CancellationToken.RetryCancelled.Poll` | src/executor/retry_cancelled.rs:76-94 | a poll is these steps in this order, and answers pending exactly with its entry in the registry |
| `CancellationToken.RetryCancelled.Drop` | src/executor/retry_cancelled.rs:100-105 | the method is the drop step of the protocol |
| `CancellationProtocol.RunInv` | src/executor/internal/cancellation/retry_cancellation_state.rs:46-82 | lock, leadership, ownership, registration and wake accounting hold in every interleaving of any number of futures and callers |
| `CancellationProtocol.NoLostWakeup` | src/executor/internal/cancellation/retry_cancellation_state.rs:46-82 | once the first cancel has returned, every live future whose last poll was pending has had its current waker invoked exactly once |
| `CancellationProtocol.WakersInvokedOnce` | src/executor/internal/cancellation/retry_cancellation_state.rs:46-54 | no waker is invoked twice or before a cancellation; after the drain the unlocked registry is empty |
| `CancellationProtocol.PendingIdsDistinct` | src/executor/internal/cancellation/waker_registry.rs:35-51 | pending futures hold distinct ids, also after the counter has wrapped |
| `CancellationProtocol.OthersKeepTheirEntries` | src/executor/internal/cancellation/waker_registry.rs:35-62 | a poll or a drop never removes or replaces the entry of another future |
| `CancellationProtocol.ConfirmedPollSeesFlag` | src/executor/internal/cancellation/retry_cancellation_state.rs:72-82 | a poll answers pending exactly when the flag was unset at its second load, and otherwise leaves nothing behind |
| `CancellationProtocol.FirstCancelNotBlocked` | src/executor/internal/cancellation/retry_cancellation_state.rs:46-54 | until it has returned the first cancel can take a step, or the holder of the lock can |
| `CancellationProtocol.RegistrationPossible` | src/executor/internal/cancellation/waker_registry.rs:35-51 | a poll can register as soon as the lock is free unless every id is taken |
| `WorkerSafety.GateStep` | src/executor/internal/worker/worker_attempt_executor.rs:115-178 | how far the calling thread has come determines what worker and reaper may have done |
| `WorkerSafety.WorkerStep` | src/executor/internal/worker/worker_attempt_executor.rs:115-130 | the worker runs its operation once and reports before it leaves |
| `WorkerSafety.QueueStep` | src/executor/internal/worker/worker_attempt_executor.rs:198-249 | the calling thread has received a prefix of what was sent, in order, and the rest is queued |
| `WorkerSafety.MemoryStep` | src/executor/internal/worker/worker_attempt_executor.rs:235-247 | what the loop remembers is what its received events say; a panic found at the join replaces the result |
| `WorkerSafety.CancelStep` | src/executor/internal/worker/worker_attempt_executor.rs:298-309 | a cancellation not yet looked at is owed a call or announced in the queue |
| `WorkerSafety.TimerStep` | src/executor/internal/worker/worker_attempt_executor.rs:213-231 | a fired timer not yet looked at is owed a call or announced in the queue |
| `WorkerSafety.ExitKnowsResult` | src/executor/internal/worker/worker_attempt_executor.rs:232-244 | proof of exit is proof of a result: the operation's own or the panic of its join |
| `WorkerSafety.ChannelStaysOpen` | src/executor/internal/worker/worker_attempt_executor.rs:266-279 | until the join has been received somebody can still send it |
| `WorkerSafety.RunInv` | src/executor/internal/worker/worker_attempt_executor.rs:82-178 | all of these hold in every interleaving |
| `WorkerSafety.OperationRunsOnceAfterAdmission` | src/executor/internal/worker/worker_attempt_executor.rs:115-170 | the operation is entered at most once, only after admission, and never after a refusal |
| `WorkerSafety.ReturnedOutcome` | src/executor/internal/worker/worker_attempt_executor.rs:198-249 | completed, stopped and timer-failed attempts have no worker left; the channel never closes early; each outcome carries its own evidence |
| `WorkerSafety.NothingLingers` | src/executor/internal/worker/worker_attempt_executor.rs:343-356 | after such a return, or a refusal, nothing enters the operation or touches the slot any more |
| `WorkerSafety.LateWrite` | src/executor/internal/worker/worker_attempt_executor.rs:376-412 | an interleaving in which an abandoned worker writes any given value after the attempt has returned |
| `WorkerSafety.LateWriteExactly` | src/executor/internal/worker/worker_attempt_executor.rs:343-412 | such a write is possible if and only if the cleanup has a bound and the attempt can be cancelled or timed out |
| `WorkerSafety.CancellationWins` | src/executor/internal/worker/worker_attempt_executor.rs:210-212 | cancellation requested before the loop looks beats timeout and completion |
| `WorkerSafety.TimerBeatsCompletion` | src/executor/internal/worker/worker_attempt_executor.rs:213-234 | a timer that answered before the loop looks at it beats a completion that is already queued |
| `WorkerSafety.ZeroGraceSeesExit` | src/executor/internal/worker/worker_attempt_executor.rs:376-412 | with zero grace a worker is given up only while its exit has not been reported; a queued proof of exit counts |
| `WorkerSafety.RankDecreases` | src/executor/internal/worker/worker_attempt_executor.rs:82-249 | every step of every thread and source uses up some of a finite amount of work |
| `WorkerSafety.EveryRunIsFinite` | src/executor/internal/worker/worker_attempt_executor.rs:82-249 | no interleaving is longer than a fixed bound |
| `WorkerSafety.NeverStuck` | src/executor/internal/worker/worker_attempt_executor.rs:198-249 | until the attempt is decided a step is possible that waits for neither operation, cancellation nor timer, except while a running operation is awaited unstopped or with unbounded grace |
| `WorkerSafety.MaximalRunsDecide` | src/executor/internal/worker/worker_attempt_executor.rs:198-249 | every interleaving is finite, and once all that is owed has been done the attempt is decided: after a cancellation or a fired timer with bounded cleanup whatever the operation does, and otherwise as soon as the operation has ended |
| `WorkerWait.ObserveWorkerExit` | src/executor/internal/worker/worker_attempt_executor.rs:376-412 | only proof of exit, expiry or a closed channel ends the cleanup; other events are discarded |
| `WorkerWait.StopWorker` | src/executor/internal/worker/worker_attempt_executor.rs:343-356 | a stopped worker is reported as stopped, still running or lost, with the trigger that stopped it |
| `WorkerWait.Absorb` | src/executor/internal/worker/worker_attempt_executor.rs:235-247 | what the loop remembers of one event |
| `WorkerWait.TakeTurn` | src/executor/internal/worker/worker_attempt_executor.rs:209-248 | one turn: cancellation, timer, completed and joined, next event |
| `WorkerWait.WaitForWorker` | src/executor/internal/worker/worker_attempt_executor.rs:198-249 | the loop returns what the specified turns and cleanup lead to |
| `WorkerWait.LoopExplained` | src/executor/internal/worker/worker_attempt_executor.rs:198-249 | each loop step of the protocol is part of a turn |
| `WorkerWait.CleanupExplained` | src/executor/internal/worker/worker_attempt_executor.rs:376-412 | each cleanup step of the protocol is one arrival |
| `WorkerWait.InterleavingsRunTheLoop` | src/executor/internal/worker/worker_attempt_executor.rs:82-249 | in every interleaving the outcome of an admitted attempt is the one the loop returns for what the calling thread happened to read |
| `WorkerFacade.InterleavingsReportFaithfully` | src/executor/internal/worker/worker_attempt_executor.rs:82-178 | every interleaving of an admitted attempt ran its operation exactly once and reports success only with a value in the slot; timeouts need a timer |
| `WorkerFacade.BlockingValueOperation.Call` | src/executor/internal/worker/blocking_value_operation.rs:97-106 | only a success is stored |
| `WorkerFacade.BlockingValueOperation.TakeValue` | src/executor/internal/worker/blocking_value_operation.rs:57-60 | returns the stored value and empties the slot |
| `WorkerFacade.BlockingValueOperation.DiscardValue` | src/executor/internal/worker/blocking_value_operation.rs:67-73 | empties the slot |
| `WorkerFacade.WorkerRetry.Execute` | src/executor/worker_retry.rs:318-340 | the attempt starts on an empty slot, and what a failed or stopped one stored is discarded |
| `WorkerFacade.WorkerRetry.TakeSuccess` | src/executor/worker_retry.rs:343-346 | the flow finishes first; the slot holds a value whenever one is taken |
| `WorkerFacade.WorkerRetry.Account` | src/executor/worker_retry.rs:342-405 | a success takes its value from the slot, every other outcome is accounted for as specified and leaves the slot alone |
| `WorkerFacade.WorkerRetry.Attempt` | src/executor/worker_retry.rs:318-405 | every reported outcome is accounted for as specified, and the slot is empty whenever another attempt may follow |
| `WorkerFacade.WorkerRetry.RunOnce` | src/executor/worker_retry.rs:306-405 | one iteration on controller and slot does what the specified iteration does |
| `WorkerFacade.WorkerRetry.RunInner` | src/executor/worker_retry.rs:290-408 | the worker loop terminates with exactly the specified run; the slot is empty when each iteration starts |
| `WorkerFacade.WorkerRetry.Run` | src/executor/retry_config.rs:175-185 | the loop, and then one notification per completion observer with the frozen result, after the last event of the flow |
| `WorkerFacade.WorkerSucceedsWithLastValue` | src/executor/worker_retry.rs:333-346 | a successful sequential run returns what its last admitted attempt reported to have stored |
| `OutcomeTable.WorkerOutcomeDecides` | src/executor/worker_retry.rs:333-405 | an admitted worker attempt is accounted for by its outcome: value, error code, panic, timeout of the scope of the plan, cancellation, and each infrastructure outcome for its own reason and stop trigger; cancelled during the attempt is reported exactly for a cancelled one with a coherent sample |
| `OutcomeTable.WorkerWaitDecides` | src/executor/worker_retry.rs:427-455 | what follows a retry planned for it is decided by the blocking wait: next iteration, cancelled during backoff, or timer failure |
| `SharedSlot.OverStaysOver` | src/executor/internal/worker/blocking_value_operation.rs:97-106 | no thread of an attempt that is over writes to the slot |
| `SharedSlot.WorldStep` | src/executor/internal/worker/blocking_value_operation.rs:31-106 | every step of the calling thread and of any thread of any attempt keeps the slot equal to what the last attempt has written, and empty between attempts |
| `SharedSlot.SlotEmptyAtGate` | src/executor/worker_retry.rs:318-331 | whenever a start gate opens it is the last attempt's and the slot is empty |
| `SharedSlot.OnlyLastWrites` | src/executor/internal/worker/blocking_value_operation.rs:97-106 | until the flow ends only the operation of the last attempt can return a value |
| `SharedSlot.TakeNeverFails` | src/executor/internal/worker/blocking_value_operation.rs:57-60 | taking the value never finds the slot empty |
| `SharedSlot.TakenFromLastAttempt` | src/executor/internal/worker/blocking_value_operation.rs:57-60 | the value taken is the one that the operation of the last, admitted attempt returned, whatever threads of earlier attempts did |
| `WorkerFlowRuns.LinkStep` | src/executor/worker_retry.rs:290-408 | controller and shared slot stay in step through every move of every thread |
| `WorkerFlowRuns.FollowStep` | src/executor/worker_retry.rs:306-405 | at every moment the flow is where the sequential iteration would be |
| `WorkerFlowRuns.NeverBroken` | src/executor/internal/worker/blocking_value_operation.rs:57-60 | in no interleaving of a whole flow does the calling thread panic on an empty slot or on its bookkeeping |
| `WorkerFlowRuns.OperationStartsOnEmptySlot` | src/executor/worker_retry.rs:318-331 | in every interleaving of a whole flow each operation starts on an empty slot |
| `WorkerFlowRuns.FlowIsLoop` | src/executor/worker_retry.rs:290-408 | every interleaving of a whole flow ends as the sequential loop does on what its attempts reported: same flow, result, iterations and calls |
| `WorkerFlowRuns.SuccessIsOfLastAttempt` | src/executor/worker_retry.rs:333-346 | a flow that succeeds returns the value that the operation of its last admitted attempt returned, whatever earlier attempts left behind and whatever their threads still do |
| `WorkerFlowRuns.CallsMatchAttempts` | src/executor/worker_retry.rs:290-408 | over all threads of all attempts the operation is entered exactly as often as the terminal context counts attempts |

## Left out

- WorkerProtocol and CancellationProtocol: modelled as steps on values rather than as threads that update shared objects in place (`WorkerWait`, `Wakers` and `CancellationToken` are the parts one thread runs by itself); every step is atomic and sequentially consistent, so weak memory, mutex poisoning and spurious wake-ups are not captured, and a woken callback always returns.
- CancellationToken.RetryCancelled.Poll: nothing else happens between its three steps; each step by itself is proved in every state that agrees with the objects, and arbitrary interleavings of many callers are the subject of `CancellationProtocol`.
- CancellationProtocol.RegistrationPossible: assumes that fewer than 2^64 futures are registered, as the allocation loop does.
- WorkerFacade.WorkerRetry.Attempt: receives the report of a finished attempt and writes its value in one go; threads of several attempts that share the slot are the subject of `WorkerFlow`, where the loop is a state machine on values and no class. The grace period is the nondeterministic expiry of `WorkerProtocol`, not elapsed real time, and stack size and thread naming are not modelled (a name with a NUL byte is one of the spawn failures).
- AsyncFacade.AsyncRetry.RunOnce: polls an operation that returns at last unless something else decides before, and waits with a timer that fires or fails at last; what stays pending for good and a run whose future is dropped are not modelled.
- Backoff.ExponentialGrowth: is about exact real arithmetic with rounding to the nearest nanosecond; the bounds in `Backoff.StepBounds` hold for any rounding, but the rounding of 64-bit floating point itself is not modelled, and an exponent beyond the range of the power function is part of the rounding oracle.
- SessionRefinesLoop.SessionMatchesLoop: concerns waits that elapse or are cancelled; a session has no timer, so a wait whose timer fails has no counterpart, and the samples of the owner's polls are coherent and not later than the next admission's.
- SessionRefinesLoop.SessionBehavesLikeLoop: under the same conditions on waits and polls, for an owner that goes on until the session ends; one that gives up is covered by `FacadeTheorems.SessionKeepsPromises`.
- Values and application errors are integers, a panic carries no payload, and error messages are not modelled.
- The Tokio facade, a thin wrapper over the asynchronous one.
- Policy and configuration builders, accessors, `Display`, serialization and conversion of configuration data, and splitting of error metadata: easy case analysis.
- The clock, resource budget, random and asynchronous runtime libraries: only the contracts named above.
- Timer registration deadlines and real time: when a timer fires is an input.
