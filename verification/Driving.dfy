/**
 What all facade loops share: repeat one iteration, row by row, until it is the last.

 The iteration is a parameter, so the results hold for every facade whose iterations count
 attempts the way `Counted` says.
 */
module Driving {
  import opened FlowModel

  /** How a run ends; an owner that stops polling abandons its session. */
  datatype Terminal = Success(value: int, context: Context) | Failure(error: RetryError) | Abandoned(context: Context)

  function TerminalContext(t: Terminal): Context {
    match t
    case Success(_, c) => c
    case Failure(e) => e.context
    case Abandoned(c) => c
  }

  /** One pass through a loop; `called` tells whether the operation ran. */
  datatype Iteration = Last(flow: Flow, terminal: Terminal, called: bool) | Continue(flow: Flow, plan: Plan)

  /** How a run ended, with the rows and operation calls it consumed. */
  datatype Ending = Ending(flow: Flow, terminal: Terminal, rows: nat, calls: nat)

  predicate SameCount(f: Flow, g: Flow) {
    g.budget.attempts == f.budget.attempts && g.budget.limits == f.budget.limits
  }

  /** An iteration calls the operation exactly when it counts an attempt, and continues only with one left. */
  predicate Counted(f: Flow, i: Iteration) {
    && i.flow.budget.limits == f.budget.limits
    && (i.Continue? ==> i.flow.budget.attempts == f.budget.attempts + 1 < f.budget.limits.maxAttempts)
    && (i.Last? ==> i.flow.budget.attempts == f.budget.attempts + (if i.called then 1 else 0))
    && (i.Last? && i.terminal.Success? ==> i.called)
  }

  ghost predicate Counting<R(!new)>(step: (Flow, R) -> Iteration) {
    forall f: Flow, row: R :: Counted(f, step(f, row))
  }

  function AttemptsLeft(f: Flow): nat {
    if f.budget.attempts < f.budget.limits.maxAttempts then f.budget.limits.maxAttempts - f.budget.attempts else 0
  }

  /** The run from flow `f` on, with the rows and operation calls consumed so far. */
  ghost function Drive<R(!new)>(step: (Flow, R) -> Iteration, f: Flow, script: nat -> R, rows: nat, calls: nat): Ending
    requires Counting(step)
    decreases AttemptsLeft(f)
  {
    match step(f, script(rows))
    case Last(g, t, called) => Ending(g, t, rows + 1, if called then calls + 1 else calls)
    case Continue(g, _) => LaterRowsCounted(step, f, script(rows)); Drive(step, g, script, rows + 1, calls + 1)
  }

  lemma LaterRowsCounted<R(!new)>(step: (Flow, R) -> Iteration, f: Flow, row: R)
    requires Counting(step)
    ensures Counted(f, step(f, row))
  {
  }

  /** One iteration, and then the rest of the run. */
  lemma DriveUnfolds<R(!new)>(step: (Flow, R) -> Iteration, f: Flow, script: nat -> R, rows: nat)
    requires Counting(step)
    ensures var i := step(f, script(rows));
            Drive(step, f, script, rows, f.budget.attempts) ==
              if i.Last? then Ending(i.flow, i.terminal, rows + 1, i.flow.budget.attempts)
              else Drive(step, i.flow, script, rows + 1, i.flow.budget.attempts)
  {
    LaterRowsCounted(step, f, script(rows));
  }

  /** At most one row per attempt left. */
  lemma {:induction false} DriveBounded<R(!new)>(step: (Flow, R) -> Iteration, f: Flow, script: nat -> R, rows: nat,
      calls: nat)
    requires Counting(step) && f.budget.attempts < f.budget.limits.maxAttempts
    ensures rows < Drive(step, f, script, rows, calls).rows <= rows + f.budget.limits.maxAttempts - f.budget.attempts
    decreases f.budget.limits.maxAttempts - f.budget.attempts
  {
    var i := step(f, script(rows));
    LaterRowsCounted(step, f, script(rows));
    if i.Continue? {
      DriveBounded(step, i.flow, script, rows + 1, calls + 1);
    }
  }

  /** The operation is called exactly as often as attempts are counted. */
  lemma {:induction false} DriveCounts<R(!new)>(step: (Flow, R) -> Iteration, f: Flow, script: nat -> R, rows: nat,
      calls: nat)
    requires Counting(step)
    ensures var e := Drive(step, f, script, rows, calls); e.calls - calls == e.flow.budget.attempts - f.budget.attempts
    decreases AttemptsLeft(f)
  {
    var i := step(f, script(rows));
    LaterRowsCounted(step, f, script(rows));
    if i.Continue? {
      DriveCounts(step, i.flow, script, rows + 1, calls + 1);
    }
  }

  /** The iteration goes on with the invariant, or ends as promised. */
  ghost predicate Carried<R(!new)>(i: Iteration, row: R, inv: Flow -> bool, done: (R, Flow, Terminal) -> bool) {
    match i
    case Last(h, t, _) => done(row, h, t)
    case Continue(h, _) => inv(h)
  }

  /** A flow invariant carried by each iteration establishes what it promises at the end, of the last row consumed. */
  lemma {:induction false} DriveKeeps<R(!new)>(
      step: (Flow, R) -> Iteration, f: Flow, script: nat -> R, rows: nat, calls: nat,
      inv: Flow -> bool, done: (R, Flow, Terminal) -> bool)
    requires Counting(step) && inv(f)
    requires forall g: Flow, row: R :: inv(g) ==> Carried(step(g, row), row, inv, done)
    ensures var e := Drive(step, f, script, rows, calls); rows < e.rows && done(script(e.rows - 1), e.flow, e.terminal)
    decreases AttemptsLeft(f)
  {
    var i := step(f, script(rows));
    LaterRowsCounted(step, f, script(rows));
    if i.Continue? {
      DriveKeeps(step, i.flow, script, rows + 1, calls + 1, inv, done);
    } else {
      assert Drive(step, f, script, rows, calls).rows - 1 == rows;
    }
  }

  /** Whatever links a successful iteration to its row links the result to the last row consumed. */
  lemma {:induction false} DriveSucceeds<R(!new)>(
      step: (Flow, R) -> Iteration, f: Flow, script: nat -> R, rows: nat, calls: nat, produced: (R, int) -> bool)
    requires Counting(step)
    requires forall g: Flow, row: R :: step(g, row).Last? && step(g, row).terminal.Success? ==>
             produced(row, step(g, row).terminal.value)
    ensures var e := Drive(step, f, script, rows, calls);
            rows < e.rows && (e.terminal.Success? ==> produced(script(e.rows - 1), e.terminal.value))
    decreases AttemptsLeft(f)
  {
    var i := step(f, script(rows));
    LaterRowsCounted(step, f, script(rows));
    if i.Continue? {
      DriveSucceeds(step, i.flow, script, rows + 1, calls + 1, produced);
    } else {
      assert Drive(step, f, script, rows, calls).rows - 1 == rows;
    }
  }
}
