/**
 * The three step adapters of the partial pipeline. A step receives the context
 * and `next`, the continuation that runs the rest of the chain, and completes
 * with a Run. All three adapters consume and hand on the same context type C.
 */
module IncomingSteps {
  import opened Tasks

  /** The rest of the chain, as a step sees it. */
  type Next<!C, E> = C -> Run<E>

  /**
   * What the implementer of a SurroundStep writes in its abstract
   * `Invoke(context, Func<Task> next)`: a script of its own effects, its own
   * failure, and awaits of the zero-argument `next`. Branching on the context
   * happens in the function that chooses the script (`C -> Body<E>`).
   */
  datatype Body<E> =
    | Done                          // completes successfully
    | Throw(error: string)          // fails with its own error
    | Emit(event: E, rest: Body<E>) // an observable effect, then `rest`
    | Proceed(rest: Body<E>)        // `await next()`, then `rest`; a fault of next propagates
    | ProceedGuarded(rest: Body<E>) // `try { await next() } catch { }`, then `rest`

  /**
   * Runs a surround body against the zero-argument continuation `next`. It
   * ends either as the body itself ends or with a fault of the continuation.
   */
  function Perform<E>(b: Body<E>, next: () -> Run<E>): (r: Run<E>)
    ensures r.outcome == Ending(b) || (next().outcome.Fault? && r.outcome == next().outcome)
  {
    match b
    case Done => Run(Ok, [])
    case Throw(e) => Run(Fault(e), [])
    case Emit(ev, rest) => Prepend([ev], Perform(rest, next))
    case Proceed(rest) =>
      var downstream := next();
      if downstream.outcome.Fault? then downstream
      else Prepend(downstream.trace, Perform(rest, next))
    case ProceedGuarded(rest) =>
      Prepend(next().trace, Perform(rest, next))
  }

  /** How many times `Perform(b, next)` calls `next` when every call ends with `downstream`. */
  function Calls<E>(b: Body<E>, downstream: Outcome): nat
  {
    match b
    case Done => 0
    case Throw(_) => 0
    case Emit(_, rest) => Calls(rest, downstream)
    case Proceed(rest) => 1 + (if downstream.Fault? then 0 else Calls(rest, downstream))
    case ProceedGuarded(rest) => 1 + Calls(rest, downstream)
  }

  /** The effects a body can produce by itself. */
  function Events<E>(b: Body<E>): set<E>
  {
    match b
    case Done => {}
    case Throw(_) => {}
    case Emit(ev, rest) => {ev} + Events(rest)
    case Proceed(rest) => Events(rest)
    case ProceedGuarded(rest) => Events(rest)
  }

  /** The body reaches an `await next()` whose failure it does not catch. */
  predicate ReachesProceed<E>(b: Body<E>)
  {
    match b
    case Done => false
    case Throw(_) => false
    case Emit(_, rest) => ReachesProceed(rest)
    case Proceed(_) => true
    case ProceedGuarded(rest) => ReachesProceed(rest)
  }

  /** How the body itself ends: it completes, or it throws its own error. */
  function Ending<E>(b: Body<E>): Outcome
  {
    match b
    case Done => Ok
    case Throw(e) => Fault(e)
    case Emit(_, rest) => Ending(rest)
    case Proceed(rest) => Ending(rest)
    case ProceedGuarded(rest) => Ending(rest)
  }

  /** The script that produces the effects of `run` itself and ends as `run` does, never calling its continuation. */
  function Replay<E>(run: Run<E>): Body<E>
    decreases |run.trace|
  {
    if run.trace == [] then (if run.outcome.Ok? then Done else Throw(run.outcome.error))
    else Emit(run.trace[0], Replay(Run(run.outcome, run.trace[1..])))
  }

  /** The zero-argument continuation SurroundStep hands to its body: `() => next(context)`. */
  function Thunk<C, E>(context: C, next: Next<C, E>): () -> Run<E>
  {
    () => next(context)
  }

  /**
   * SurroundStep.Invoke(context, next): the body's own Invoke, with next
   * closed over the unchanged context. A failure of the rest of the chain
   * propagates once the body reaches an await of it that it does not catch;
   * a body that reaches none ends as it ends by itself.
   */
  function SurroundInvoke<C, E>(body: C -> Body<E>, context: C, next: Next<C, E>): (r: Run<E>)
    ensures ReachesProceed(body(context)) && next(context).outcome.Fault? ==> r.outcome == next(context).outcome
    ensures !ReachesProceed(body(context)) ==> r.outcome == Ending(body(context))
  {
    var b, thunk := body(context), Thunk(context, next);
    if ReachesProceed(b) then
      if next(context).outcome.Fault? then PerformPropagates(b, thunk); Perform(b, thunk)
      else Perform(b, thunk)
    else
      PerformHandles(b, thunk); Perform(b, thunk)
  }

  /**
   * BeforeStep.Invoke(context, next) as written: awaits the body; the call of
   * next is commented out. It behaves as a SurroundStep whose body produces
   * the body's run and makes no continuation call.
   */
  function BeforeInvoke<C, E>(body: C -> Run<E>, context: C, next: Next<C, E>): (r: Run<E>)
    ensures r == SurroundInvoke(c => Replay(body(c)), context, next)
    ensures Calls(Replay(body(context)), next(context).outcome) == 0
  {
    ReplayRuns(body(context), Thunk(context, next), next(context).outcome);
    body(context)
  }

  /**
   * AfterStep.Invoke(context, next) as written: the call of next is commented
   * out; awaits the body. It too is a SurroundStep that makes no continuation call.
   */
  function AfterInvoke<C, E>(body: C -> Run<E>, context: C, next: Next<C, E>): (r: Run<E>)
    ensures r == SurroundInvoke(c => Replay(body(c)), context, next)
    ensures Calls(Replay(body(context)), next(context).outcome) == 0
  {
    ReplayRuns(body(context), Thunk(context, next), next(context).outcome);
    body(context)
  }

  /** A replayed run is that run, and it never calls its continuation. */
  lemma {:induction false} ReplayRuns<E>(run: Run<E>, next: () -> Run<E>, downstream: Outcome)
    ensures Perform(Replay(run), next) == run
    ensures Calls(Replay(run), downstream) == 0
    decreases |run.trace|
  {
    if run.trace != [] {
      var tail := Run(run.outcome, run.trace[1..]);
      ReplayRuns(tail, next, downstream);
      assert [run.trace[0]] + run.trace[1..] == run.trace;
    }
  }

  // ---------------------------------------------------------------------------
  // Surround: the body alone decides how often the rest of the chain runs.
  // ---------------------------------------------------------------------------

  /** A body's run depends on its continuation only through what one call of it yields. */
  lemma {:induction false} PerformDependsOnRun<E>(b: Body<E>, next1: () -> Run<E>, next2: () -> Run<E>)
    requires next1() == next2()
    ensures Perform(b, next1) == Perform(b, next2)
  {
    match b
    case Done =>
    case Throw(_) =>
    case Emit(_, rest) => PerformDependsOnRun(rest, next1, next2);
    case Proceed(rest) => PerformDependsOnRun(rest, next1, next2);
    case ProceedGuarded(rest) => PerformDependsOnRun(rest, next1, next2);
  }

  /**
   * SurroundStep's two-argument Invoke adds nothing of its own: it is the
   * body's zero-argument Invoke run with any continuation that does what
   * `next(context)` does.
   */
  lemma SurroundIsBodyInvoke<C, E>(body: C -> Body<E>, context: C, next: Next<C, E>, thunk: () -> Run<E>)
    requires thunk() == next(context)
    ensures SurroundInvoke(body, context, next) == Perform(body(context), thunk)
  {
    PerformDependsOnRun(body(context), Thunk(context, next), thunk);
  }

  /**
   * Every call of the continuation contributes the downstream effects once:
   * an effect the body itself never produces occurs Calls times as often as
   * it occurs in one downstream run.
   */
  lemma {:induction false} PerformCount<E>(b: Body<E>, next: () -> Run<E>, x: E)
    requires x !in Events(b)
    ensures Count(x, Perform(b, next).trace) == Calls(b, next().outcome) * Count(x, next().trace)
  {
    var d := next();
    var perDownstream := Count(x, d.trace);
    match b
    case Done =>
    case Throw(_) =>
    case Emit(ev, rest) =>
      PerformCount(rest, next, x);
      CountAppend(x, [ev], Perform(rest, next).trace);
      assert Count(x, [ev]) == 0;
    case Proceed(rest) =>
      if !d.outcome.Fault? {
        var k := Calls(rest, d.outcome);
        PerformCount(rest, next, x);
        CountAppend(x, d.trace, Perform(rest, next).trace);
        assert (1 + k) * perDownstream == perDownstream + k * perDownstream;
      }
    case ProceedGuarded(rest) =>
      var k := Calls(rest, d.outcome);
      PerformCount(rest, next, x);
      CountAppend(x, d.trace, Perform(rest, next).trace);
      assert (1 + k) * perDownstream == perDownstream + k * perDownstream;
  }

  /**
   * With a downstream that records the context it is entered with, a
   * SurroundStep's trace shows downstream entered exactly Calls times, and
   * only ever with the step's own context.
   */
  lemma SurroundDownstreamCount<C, E>(body: C -> Body<E>, context: C, next: Next<C, E>, mark: C -> E)
    requires forall c :: next(c).trace == [mark(c)]
    requires forall c :: mark(c) !in Events(body(context))
    ensures Count(mark(context), SurroundInvoke(body, context, next).trace)
         == Calls(body(context), next(context).outcome)
    ensures forall c :: mark(c) != mark(context) ==>
              Count(mark(c), SurroundInvoke(body, context, next).trace) == 0
  {
    var thunk := Thunk(context, next);
    PerformCount(body(context), thunk, mark(context));
    forall c | mark(c) != mark(context)
      ensures Count(mark(c), SurroundInvoke(body, context, next).trace) == 0
    {
      PerformCount(body(context), thunk, mark(c));
    }
  }

  /** A body that does not call the continuation makes the result independent of the rest of the chain. */
  lemma {:induction false} PerformShortCircuit<E>(b: Body<E>, next1: () -> Run<E>, next2: () -> Run<E>)
    requires Calls(b, next1().outcome) == 0
    ensures Perform(b, next1) == Perform(b, next2)
  {
    match b
    case Done =>
    case Throw(_) =>
    case Emit(_, rest) => PerformShortCircuit(rest, next1, next2);
  }

  lemma SurroundShortCircuit<C, E>(body: C -> Body<E>, context: C, next1: Next<C, E>, next2: Next<C, E>)
    requires Calls(body(context), next1(context).outcome) == 0
    ensures SurroundInvoke(body, context, next1) == SurroundInvoke(body, context, next2)
  {
    PerformShortCircuit(body(context), Thunk(context, next1), Thunk(context, next2));
  }

  /** A body that awaits the continuation twice runs the rest of the chain twice. */
  lemma SurroundRepeats<C, E>(body: C -> Body<E>, context: C, next: Next<C, E>)
    requires body(context) == Proceed(Proceed(Done))
    requires next(context).outcome == Ok
    ensures SurroundInvoke(body, context, next) == Run(Ok, next(context).trace + next(context).trace)
  {
    assert next(context).trace + (next(context).trace + []) == next(context).trace + next(context).trace;
  }

  /** A failure of the continuation at an await the body does not catch is the body's outcome. */
  lemma {:induction false} PerformPropagates<E>(b: Body<E>, next: () -> Run<E>)
    requires ReachesProceed(b)
    requires next().outcome.Fault?
    ensures Perform(b, next).outcome == next().outcome
  {
    match b
    case Emit(_, rest) => PerformPropagates(rest, next);
    case Proceed(_) =>
    case ProceedGuarded(rest) => PerformPropagates(rest, next);
  }

  /** A body that catches every failure of its continuation ends as it ends by itself, whatever the continuation does. */
  lemma {:induction false} PerformHandles<E>(b: Body<E>, next: () -> Run<E>)
    requires !ReachesProceed(b)
    ensures Perform(b, next).outcome == Ending(b)
  {
    match b
    case Done =>
    case Throw(_) =>
    case Emit(_, rest) => PerformHandles(rest, next);
    case ProceedGuarded(rest) => PerformHandles(rest, next);
  }

  // ---------------------------------------------------------------------------
  // Before and After, as written: the continuation is never called.
  // ---------------------------------------------------------------------------

  /** The body runs once, on the step's context, and its run (outcome and effects) is the step's, whatever next is. */
  lemma BeforeRunsOnlyBody<C, E>(body: C -> Run<E>, context: C, next: Next<C, E>)
    ensures BeforeInvoke(body, context, next) == body(context)
  {
  }

  lemma AfterRunsOnlyBody<C, E>(body: C -> Run<E>, context: C, next: Next<C, E>)
    ensures AfterInvoke(body, context, next) == body(context)
  {
  }

  /** Before and After cannot be told apart by any body, context or continuation. */
  lemma BeforeAfterIndistinguishable<C, E>(body: C -> Run<E>, context: C, next1: Next<C, E>, next2: Next<C, E>)
    ensures BeforeInvoke(body, context, next1) == AfterInvoke(body, context, next2)
  {
  }

  /**
   * A chain of a BeforeStep logging "enter", a SurroundStep that proceeds only
   * when `flag` holds, and an AfterStep logging "exit" stops after the first
   * step, whatever `flag` is.
   */
  lemma EnterOnlyChain(flag: bool, context: int, terminal: Next<int, string>)
    ensures
      var a := (c: int) => Run(Ok, ["enter"]);
      var b := (c: int) => if flag then Emit("B-before", Proceed(Emit("B-after", Done))) else Done;
      var after := (c: int) => Run(Ok, ["exit"]);
      var chain := BeforeInvoke(a, context,
        c1 => SurroundInvoke(b, c1, c2 => AfterInvoke(after, c2, terminal)));
      chain == Run(Ok, ["enter"])
  {
  }

  /** Without the BeforeStep in front, the SurroundStep decides whether the AfterStep runs. */
  lemma SurroundThenAfterChain(flag: bool, context: int, terminal: Next<int, string>)
    ensures
      var b := (c: int) => if flag then Emit("B-before", Proceed(Emit("B-after", Done))) else Done;
      var after := (c: int) => Run(Ok, ["exit"]);
      var chain := SurroundInvoke(b, context, c2 => AfterInvoke(after, c2, terminal));
      chain == Run(Ok, if flag then ["B-before", "exit", "B-after"] else [])
  {
    if flag {
      assert ["exit"] + (["B-after"] + []) == ["exit", "B-after"];
    }
  }
}
