/**
 The public budget: admissions hand out linear tokens, and completing consumes one.

 A world holds every budget a program has created and every token that is still
 alive. Tokens can be moved to any budget or dropped, but not copied or forged.
 */
module BudgetTokens {
  import opened Options
  import opened Time
  import opened Accounting

  datatype Token = Token(number: nat, owner: nat)

  datatype BudgetError = AttemptInProgress | InvalidAttempt | Clock | Exhausted(limit: LimitKind)

  function Rejection(b: Budget, delay: Duration, now: Instant): Option<BudgetError> {
    if b.active.Some? then Some(AttemptInProgress)
    else if !Coherent(b, now) then Some(Clock)
    else match LimitAfter(Sampled(b, now), delay)
      case None => None
      case Some(limit) => Some(Exhausted(limit))
  }

  /** Everything spent by then, the delay included, is below its limit. */
  predicate Affords(b: Budget, delay: Duration, now: Instant) {
    && b.attempts < b.limits.maxAttempts
    && Below(b.limits.operationBudget, b.operationElapsed)
    && Below(b.limits.totalBudget, now.at - b.startedAt.at + delay)
  }

  /** The first limit that what is spent by then has reached. */
  predicate Reaches(b: Budget, delay: Duration, now: Instant, limit: LimitKind) {
    match limit
    case AttemptLimit => b.attempts >= b.limits.maxAttempts
    case OperationLimit =>
      b.attempts < b.limits.maxAttempts && !Below(b.limits.operationBudget, b.operationElapsed)
    case TotalLimit =>
      && b.attempts < b.limits.maxAttempts && Below(b.limits.operationBudget, b.operationElapsed)
      && !Below(b.limits.totalBudget, now.at - b.startedAt.at + delay)
  }

  /**
   Nothing stands in the way exactly when no attempt is active, the sample follows the last one and
   everything spent is below its limit; otherwise the first obstacle is named.
   */
  lemma RejectionExact(b: Budget, delay: Duration, now: Instant)
    requires Inv(b)
    ensures Rejection(b, delay, now).None? <==> b.active.None? && Follows(b.sampledAt, now) && Affords(b, delay, now)
    ensures Rejection(b, delay, now) == Some(AttemptInProgress) <==> b.active.Some?
    ensures Rejection(b, delay, now) == Some(Clock) <==> b.active.None? && !Follows(b.sampledAt, now)
    ensures forall limit :: Rejection(b, delay, now) == Some(Exhausted(limit)) <==>
              b.active.None? && Follows(b.sampledAt, now) && Reaches(b, delay, now, limit)
    ensures Rejection(b, delay, now) != Some(InvalidAttempt)
  {
  }

  /** A control call moves the last sample to its own while nothing runs, and changes nothing else. */
  lemma ObservedExact(b: Budget, now: Instant)
    ensures Observed(b, now)
             == b.(sampledAt := if b.active.None? && Follows(b.sampledAt, now) then now else b.sampledAt)
  {
  }

  /** Accounting after a control call that sampled `now` but admitted nothing. */
  function Observed(b: Budget, now: Instant): Budget {
    if b.active.None? && Coherent(b, now) then Sampled(b, now) else b
  }

  predicate Owns(owner: nat, b: Budget, t: Token) {
    t.owner == owner && b.active.Some? && t.number == b.attempts
  }

  class RetryBudget {
    const owner: nat
    const state: RetryBudgetState

    constructor (owner: nat, now: Instant, limits: Limits)
      requires ValidLimits(limits)
      ensures this.owner == owner && fresh(state) && state.Valid() && state.Value() == Fresh(limits, now)
    {
      this.owner := owner;
      state := new RetryBudgetState(now, limits);
    }

    method Snapshot(now: Instant) returns (r: Result<BudgetSnapshot, BudgetError>)
      requires state.Valid()
      ensures r == if Coherent(state.Value(), now)
                   then Ok(BudgetSnapshot(state.attempts, state.operationElapsed,
                                           TotalElapsed(Sampled(state.Value(), now)), state.lastAttemptElapsed))
                   else Err(Clock)
    {
      var s := state.SnapshotAt(now);
      return match s { case Ok(v) => Ok(v) case Err(_) => Err(Clock) };
    }

    method BeginAttempt(now: Instant) returns (r: Result<Token, BudgetError>)
      requires state.Valid()
      modifies state
      ensures state.Valid()
      ensures match Rejection(old(state.Value()), 0, now)
              case Some(e) => r == Err(e) && state.Value() == Observed(old(state.Value()), now)
              case None => r == Ok(Token(state.attempts, owner)) && state.Value() == Begun(old(state.Value()), now)
      ensures r.Ok? <==> old(state.attemptStartedAt).None? && Follows(old(state.sampledAt), now)
                         && Affords(old(state.Value()), 0, now)
      ensures r.Ok? ==> state.attempts == old(state.attempts) + 1 && state.attemptStartedAt == Some(now)
      ensures state.sampledAt == if old(state.attemptStartedAt).None? && Follows(old(state.sampledAt), now)
                                 then now else old(state.sampledAt)
    {
      RejectionExact(state.Value(), 0, now);
      if state.HasActiveAttempt() {
        return Err(AttemptInProgress);
      }
      var refreshed := state.Refresh(now);
      if refreshed.Err? {
        return Err(Clock);
      }
      var limit := state.RetryLimit(0);
      if limit.Some? {
        return Err(Exhausted(limit.value));
      }
      state.BeginAttempt(now);
      return Ok(Token(state.attempts, owner));
    }

    method FinishAttempt(attempt: Token, now: Instant) returns (r: Result<BudgetSnapshot, BudgetError>)
      requires state.Valid()
      modifies state
      ensures state.Valid()
      ensures !Owns(owner, old(state.Value()), attempt) ==>
               r == Err(InvalidAttempt) && state.Value() == old(state.Value())
      ensures Owns(owner, old(state.Value()), attempt) && !Coherent(old(state.Value()), now) ==>
                r == Err(Clock) && state.Value() == old(state.Value())
      ensures Owns(owner, old(state.Value()), attempt) && Coherent(old(state.Value()), now) ==>
                && state.Value() == Finished(old(state.Value()), now)
                && r == Ok(BudgetSnapshot(state.attempts, state.operationElapsed, TotalElapsed(state.Value()),
                                        state.lastAttemptElapsed))
      ensures r.Ok? ==>
                var spent := now.at - old(state.attemptStartedAt).value.at;
                && old(state.attemptStartedAt).Some? && Follows(old(state.sampledAt), now)
                && r.value == BudgetSnapshot(old(state.attempts), old(state.operationElapsed) + spent,
                                             now.at - state.startedAt.at, spent)
    {
      if state.HasActiveAttempt() && Coherent(state.Value(), now) {
        FinishedExact(state.Value(), now);
      }
      if attempt.owner != owner || !state.HasActiveAttempt() || attempt.number != state.attempts {
        return Err(InvalidAttempt);
      }
      var finished := state.FinishAttempt(now);
      if finished.Err? {
        return Err(Clock);
      }
      var s := state.CurrentSnapshot();
      return Ok(s);
    }

    method CheckRetryAfter(delay: Duration, now: Instant) returns (r: Option<BudgetError>)
      requires state.Valid()
      modifies state
      ensures state.Valid()
      ensures r == Rejection(old(state.Value()), delay, now)
      ensures state.Value() == Observed(old(state.Value()), now)
      ensures r.None? <==> old(state.attemptStartedAt).None? && Follows(old(state.sampledAt), now)
                           && Affords(old(state.Value()), delay, now)
      ensures state.sampledAt == if old(state.attemptStartedAt).None? && Follows(old(state.sampledAt), now)
                                 then now else old(state.sampledAt)
    {
      RejectionExact(state.Value(), delay, now);
      if state.HasActiveAttempt() {
        return Some(AttemptInProgress);
      }
      var refreshed := state.Refresh(now);
      if refreshed.Err? {
        return Some(Clock);
      }
      var limit := state.RetryLimit(delay);
      return match limit { case Some(l) => Some(Exhausted(l)) case None => None };
    }
  }

  // --- Every run of every program over any number of budgets ------------------------------

  datatype World = World(budgets: map<nat, Budget>, tokens: multiset<Token>)

  datatype Action =
    | Create(owner: nat, limits: Limits, now: Instant)
    | Begin(owner: nat, now: Instant)
    | Finish(owner: nat, token: Token, now: Instant)
    | Check(owner: nat, delay: Duration, now: Instant)
    | Discard(token: Token)

  ghost predicate Enabled(w: World, a: Action) {
    match a
    case Create(owner, limits, _) => owner !in w.budgets && ValidLimits(limits)
    case Begin(owner, _) => owner in w.budgets
    case Finish(owner, token, _) => owner in w.budgets && token in w.tokens
    case Check(owner, _, _) => owner in w.budgets
    case Discard(token) => token in w.tokens
  }

  ghost function Next(w: World, a: Action): World
    requires Enabled(w, a)
  {
    match a
    case Create(owner, limits, now) => w.(budgets := w.budgets[owner := Fresh(limits, now)])
    case Begin(owner, now) =>
      var b := w.budgets[owner];
      if Rejection(b, 0, now).Some? then w.(budgets := w.budgets[owner := Observed(b, now)])
      else World(w.budgets[owner := Begun(b, now)], w.tokens + multiset{Token(b.attempts + 1, owner)})
    case Finish(owner, token, now) =>
      var b := w.budgets[owner];
      var rest := w.tokens - multiset{token};
      if Owns(owner, b, token) && Coherent(b, now) then World(w.budgets[owner := Finished(b, now)], rest)
      else w.(tokens := rest)
    case Check(owner, _, now) => w.(budgets := w.budgets[owner := Observed(w.budgets[owner], now)])
    case Discard(token) => w.(tokens := w.tokens - multiset{token})
  }

  ghost predicate IsRun(run: seq<World>, actions: seq<Action>) {
    && |run| == |actions| + 1
    && run[0] == World(map[], multiset{})
    && forall i :: 0 <= i < |actions| ==> Enabled(run[i], actions[i]) && run[i + 1] == Next(run[i], actions[i])
  }

  ghost predicate Sound(budgets: map<nat, Budget>) {
    forall o :: o in budgets ==> Inv(budgets[o])
  }

  /** Each live token is the only one of its kind and names its budget's single active attempt. */
  ghost predicate TokensNameActive(w: World) {
    forall t :: t in w.tokens ==> w.tokens[t] == 1 && t.owner in w.budgets && Owns(t.owner, w.budgets[t.owner], t)
  }

  ghost predicate Linear(w: World) { Sound(w.budgets) && TokensNameActive(w) }

  lemma SoundStep(w: World, a: Action)
    requires Sound(w.budgets) && Enabled(w, a)
    ensures Sound(Next(w, a).budgets)
  {
    match a
    case Create(_, limits, now) => FreshInv(limits, now);
    case Begin(owner, now) =>
      if Rejection(w.budgets[owner], 0, now).None? {
        BegunInv(w.budgets[owner], now);
      } else if Coherent(w.budgets[owner], now) {
        SampledInv(w.budgets[owner], now);
      }
    case Finish(owner, token, now) =>
      if Owns(owner, w.budgets[owner], token) && Coherent(w.budgets[owner], now) {
        FinishedInv(w.budgets[owner], now);
      }
    case Check(owner, _, now) =>
      if Coherent(w.budgets[owner], now) {
        SampledInv(w.budgets[owner], now);
      }
    case Discard(_) =>
  }

  lemma TokensStep(w: World, a: Action)
    requires TokensNameActive(w) && Enabled(w, a)
    ensures TokensNameActive(Next(w, a))
  {
  }

  lemma {:induction false} LinearRun(run: seq<World>, actions: seq<Action>, i: nat)
    requires IsRun(run, actions) && i < |run|
    ensures Linear(run[i])
  {
    if i > 0 {
      LinearRun(run, actions, i - 1);
      SoundStep(run[i - 1], actions[i - 1]);
      TokensStep(run[i - 1], actions[i - 1]);
    }
  }

  /** A token is handed out only within all three limits at its own sample, and exactly then. */
  lemma TokensWithinLimits(run: seq<World>, actions: seq<Action>, i: nat)
    requires IsRun(run, actions) && i < |actions| && actions[i].Begin?
    ensures var b, a := run[i].budgets[actions[i].owner], actions[i];
            if b.active.None? && Follows(b.sampledAt, a.now) && Affords(b, 0, a.now)
            then run[i + 1].tokens == run[i].tokens + multiset{Token(b.attempts + 1, a.owner)}
                 && run[i + 1].budgets[a.owner].active == Some(a.now)
            else run[i + 1].tokens == run[i].tokens
                 && run[i + 1].budgets[a.owner] ==
                      b.(sampledAt := if b.active.None? && Follows(b.sampledAt, a.now) then a.now else b.sampledAt)
  {
    LinearRun(run, actions, i);
    ObservedExact(run[i].budgets[actions[i].owner], actions[i].now);
    RejectionExact(run[i].budgets[actions[i].owner], 0, actions[i].now);
  }

  /** A token that finishes its attempt adds the time between its own two samples to its budget. */
  lemma TokensAddTheirTime(run: seq<World>, actions: seq<Action>, i: nat)
    requires IsRun(run, actions) && i < |actions| && actions[i].Finish? && actions[i].owner == actions[i].token.owner
    ensures var b, c, now := run[i].budgets[actions[i].owner], run[i + 1].budgets[actions[i].owner], actions[i].now;
            && b.active.Some?
            && (if Follows(b.sampledAt, now)
                then c.active.None? && c.operationElapsed == b.operationElapsed + (now.at - b.active.value.at)
                     && c.completed == b.completed + [Interval(b.active.value.at, now.at)]
                else c == b)
  {
    LinearRun(run, actions, i);
    if Coherent(run[i].budgets[actions[i].owner], actions[i].now) {
      FinishedExact(run[i].budgets[actions[i].owner], actions[i].now);
    }
  }

  /**
   Whoever finishes with a token of another budget changes no accounting; with an own token only
   the clock can refuse.
   */
  lemma FinishVerdict(run: seq<World>, actions: seq<Action>, i: nat)
    requires IsRun(run, actions) && i < |actions| && actions[i].Finish?
    ensures var a := actions[i];
            && (a.token.owner != a.owner ==> run[i + 1].budgets == run[i].budgets)
            && (a.token.owner == a.owner <==> Owns(a.owner, run[i].budgets[a.owner], a.token))
            && a.token !in run[i + 1].tokens
  {
    LinearRun(run, actions, i);
  }

  ghost predicate Orphaned(w: World, owner: nat) {
    && owner in w.budgets && w.budgets[owner].active.Some?
    && forall t :: t in w.tokens ==> t.owner != owner
  }

  lemma OrphanedStep(w: World, a: Action, owner: nat)
    requires Orphaned(w, owner) && Enabled(w, a)
    ensures Orphaned(Next(w, a), owner) && Next(w, a).budgets[owner] == w.budgets[owner]
  {
  }

  /**
   A token that is dropped, or consumed by a rejected clock sample, closes its budget for
   good: in every later world that budget is exactly as it was, so it never admits again.
   */
  lemma {:induction false} OrphanedForever(run: seq<World>, actions: seq<Action>, owner: nat, i: nat, j: nat)
    requires IsRun(run, actions) && i <= j < |run| && Orphaned(run[i], owner)
    ensures Orphaned(run[j], owner) && run[j].budgets[owner] == run[i].budgets[owner]
    decreases j
  {
    if i < j {
      OrphanedForever(run, actions, owner, i, j - 1);
      OrphanedStep(run[j - 1], actions[j - 1], owner);
    }
  }

  /** A token that is gone was the last of its owner. */
  lemma LastTokenOf(w: World, token: Token)
    requires TokensNameActive(w) && token in w.tokens
    ensures forall u :: u in w.tokens - multiset{token} ==> u.owner != token.owner
  {
    forall u | u in w.tokens - multiset{token} ensures u.owner != token.owner {
      assert w.tokens[token] == 1 && u in w.tokens;
    }
  }

  /** The token is spent or dropped without finishing its own attempt. */
  ghost predicate Loses(w: World, a: Action) {
    a.Discard? || (a.Finish? && a.owner in w.budgets
                   && (a.owner != a.token.owner || !Coherent(w.budgets[a.owner], a.now)))
  }

  lemma LosingStep(w: World, a: Action)
    requires TokensNameActive(w) && Enabled(w, a) && Loses(w, a)
    ensures var n := Next(w, a); n.budgets == w.budgets && n.tokens == w.tokens - multiset{a.token}
  {
  }

  lemma LosingATokenOrphans(run: seq<World>, actions: seq<Action>, i: nat)
    requires IsRun(run, actions) && i < |actions|
    requires actions[i].Discard? || (actions[i].Finish? &&
               (actions[i].owner != actions[i].token.owner
                   || !Coherent(run[i].budgets[actions[i].owner], actions[i].now)))
    ensures Orphaned(run[i + 1], actions[i].token.owner)
  {
    LinearRun(run, actions, i);
    LosingStep(run[i], actions[i]);
    LastTokenOf(run[i], actions[i].token);
  }
}
