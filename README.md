# async-dolls: the partial pipeline's step machinery, in Dafny

The "nested dolls" pipeline runs a message through a chain of steps. Every step
receives the processing context and `next`, a continuation that runs the rest
of the chain. This project models three pieces of that machinery as pure
functions and proves how continuations are wired through them:

- the step adapters of `IncomingStep.cs`: `SurroundStep`, `BeforeStep` and
  `AfterStep` (module `IncomingSteps`, file `incoming_step.dfy`);
- `ElementInvoker<TIn, TOut>`, the type-erased dispatcher that casts an opaque
  behaviour and context and forwards `next` (modules `Contexts` and
  `ElementInvokers`);
- the `MessageIntent` enumeration and its wire ordinals (module `MessageIntents`).

How `Task` and `await` are modelled (module `Tasks`): running a step gives a
`Run`. A `Run` holds an `Outcome` (`Ok` or `Fault(error)`) and the trace of
observable effects, in order. `await` is plain sequencing. A faulted or
cancelled task is a `Fault`, and awaiting it rethrows the fault.

A `SurroundStep` implementer writes the abstract `Invoke(context, Func<Task>)`.
The model represents it as a function from the context to a `Body` script:

- `Emit` is an effect;
- `Throw` is the body's own failure;
- `Proceed` is `await next()`, and a fault from it propagates;
- `ProceedGuarded` is `await next()` inside a `try` whose `catch` swallows the fault.

`Calls(b, o)` counts how many times the body calls its continuation when each
call ends with outcome `o`. `next` is a parameter of every step, as in the
source.

Context types are a derivation tree rooted at the base type `Context`. A
`TypeTag` is either `ContextBase` or `Derived(id, base)`. `IsSubtype` is the
relation that a C# reference cast checks. A `null` reference is `None`.

Points where the code as written decides the model:

- `BeforeStep.Invoke` and `AfterStep.Invoke` never call `next`. The calls are
  commented out (IncomingStep.cs lines 23 and 34). So both adapters simply run
  their body, and a chain stops at the first such step (`EnterOnlyChain`).
  The class names suggest "body, then `next`" for BeforeStep and "`next`, then
  body" for AfterStep. So does where the disabled calls sit: after the body at
  IncomingStep.cs:23, before it at :34. The model follows the code as written.
- `ElementInvoker.Invoke` passes `next` on untouched; it does not wrap it in a
  cast. The model forwards the same `next`.
- When the behaviour is `null`, the behaviour cast succeeds. C# then evaluates
  the context cast. Only after that does the call on the null receiver throw.
  So with a null behaviour and an ill-typed context, the context-cast error is
  reported.
- The invoker is stateless by construction. `ElementInvoker` is a datatype
  holding only its two type tags, and `Invoke` is a function of its arguments.

## Model

| member | source | states |
|---|---|---|
| `MessageIntents.Encode` | async-dolls/3-AsyncDolls/MessageIntent.cs:6-22 | every intent has an ordinal, always one of 1, 2, 3 |
| `MessageIntents.Decode` | async-dolls/3-AsyncDolls/MessageIntent.cs:6-22 | an integer names an intent exactly when it is 1, 2 or 3 (0 and all others give None), and the intent it names encodes back to it |
| `MessageIntents.FixedOrdinals` | async-dolls/3-AsyncDolls/MessageIntent.cs:11-21 | Send = 1, Publish = 2, Reply = 3 |
| `MessageIntents.EncodeInjective` | async-dolls/3-AsyncDolls/MessageIntent.cs:6-22 | distinct intents have distinct ordinals |
| `MessageIntents.DecodeEncode` | async-dolls/3-AsyncDolls/MessageIntent.cs:6-22 | decoding an intent's ordinal gives that intent back |
| `IncomingSteps.Perform` | async-dolls/7-AsyncDollsPartial/IncomingStep.cs:14 | a surround body's run ends either as the body itself ends (completes or throws its own error) or with a fault of its continuation |
| `IncomingSteps.SurroundInvoke` | async-dolls/7-AsyncDollsPartial/IncomingStep.cs:9-12 | a failure of the rest of the chain propagates once the body reaches an await of `next` that it does not catch; a body that reaches none ends as it ends by itself, whatever `next` does |
| `IncomingSteps.BeforeInvoke` | async-dolls/7-AsyncDollsPartial/IncomingStep.cs:20-24 | as written, BeforeStep is a SurroundStep whose body produces the body's run and makes zero calls of `next` |
| `IncomingSteps.AfterInvoke` | async-dolls/7-AsyncDollsPartial/IncomingStep.cs:32-36 | as written, AfterStep is a SurroundStep whose body produces the body's run and makes zero calls of `next` |
| `IncomingSteps.ReplayRuns` | async-dolls/7-AsyncDollsPartial/IncomingStep.cs:20-36 | a script that replays a run's effects and ending reproduces that run exactly and never calls its continuation |
| `IncomingSteps.PerformDependsOnRun` | async-dolls/7-AsyncDollsPartial/IncomingStep.cs:14 | a surround body's run depends on its continuation only through what that continuation yields; this follows from modelling the continuation as a pure function (see `IncomingSteps.Perform` under Left out), not from the C# body |
| `IncomingSteps.SurroundIsBodyInvoke` | async-dolls/7-AsyncDollsPartial/IncomingStep.cs:9-12 | the two-argument Invoke returns exactly what the body's zero-argument Invoke returns with a continuation that does what `next(context)` does; it adds no effect of its own. The "any such continuation" part rests on the pure-continuation modelling (see `IncomingSteps.Perform` under Left out) |
| `IncomingSteps.PerformCount` | async-dolls/7-AsyncDollsPartial/IncomingStep.cs:11-14 | each continuation call contributes one copy of the downstream effects: an effect the body never produces occurs `Calls` times as often as in one downstream run |
| `IncomingSteps.SurroundDownstreamCount` | async-dolls/7-AsyncDollsPartial/IncomingStep.cs:11 | the continuation `() => next(context)` handed to the body calls `next` once per call, on the step's own unchanged context: with a downstream that records its context, the rest of the chain is entered exactly as many times as the body calls its continuation, and never with any other context |
| `IncomingSteps.PerformShortCircuit` | async-dolls/7-AsyncDollsPartial/IncomingStep.cs:14 | a body that makes no continuation call gives the same run whatever the continuation is |
| `IncomingSteps.SurroundShortCircuit` | async-dolls/7-AsyncDollsPartial/IncomingStep.cs:9-12 | a SurroundStep whose body skips `next` gives the same result for every rest-of-chain: downstream has no effect |
| `IncomingSteps.SurroundRepeats` | async-dolls/7-AsyncDollsPartial/IncomingStep.cs:11 | a body that awaits the continuation twice runs the rest of the chain twice: its trace is the downstream trace twice over |
| `IncomingSteps.PerformPropagates` | async-dolls/7-AsyncDollsPartial/IncomingStep.cs:14 | when the body reaches an await of its continuation that it does not catch, even after earlier guarded awaits, a continuation fault becomes the body's outcome |
| `IncomingSteps.PerformHandles` | async-dolls/7-AsyncDollsPartial/IncomingStep.cs:14 | a body that catches every continuation failure it reaches ends as it ends by itself (`Ok` if it never throws), whatever its continuation does |
| `IncomingSteps.BeforeRunsOnlyBody` | async-dolls/7-AsyncDollsPartial/IncomingStep.cs:20-24 | BeforeStep runs its body once, on its own context; its outcome and trace are exactly the body's, for every `next` |
| `IncomingSteps.AfterRunsOnlyBody` | async-dolls/7-AsyncDollsPartial/IncomingStep.cs:32-36 | AfterStep runs its body once, on its own context; its outcome and trace are exactly the body's, for every `next` |
| `IncomingSteps.BeforeAfterIndistinguishable` | async-dolls/7-AsyncDollsPartial/IncomingStep.cs:20-36 | for every body, context and pair of continuations, BeforeStep and AfterStep give the same result |
| `IncomingSteps.EnterOnlyChain` | async-dolls/7-AsyncDollsPartial/IncomingStep.cs:20-24 | chaining a BeforeStep that logs "enter", a flag-controlled SurroundStep and an AfterStep that logs "exit" yields only "enter", whatever the flag |
| `IncomingSteps.SurroundThenAfterChain` | async-dolls/7-AsyncDollsPartial/IncomingStep.cs:9-36 | a flag-controlled SurroundStep in front of an AfterStep runs the AfterStep between its own effects when the flag is set, and never runs it otherwise |
| `Contexts.IsSubtype` | async-dolls/7-AsyncDollsPartial/ElementInvoker.cs:12 | the relation a reference cast checks; a type lies at least as deep in the type tree as each type it derives from, and strictly deeper unless they are the same type |
| `Contexts.EveryTypeIsContext` | async-dolls/7-AsyncDollsPartial/ElementInvoker.cs:7-8 | every context type derives from the base type Context |
| `Contexts.SubtypeTransitive` | async-dolls/7-AsyncDollsPartial/ElementInvoker.cs:12 | derivation is transitive: an instance of a type derived from a type derived from T can be cast to T |
| `Contexts.SubtypeAntisymmetric` | async-dolls/7-AsyncDollsPartial/ElementInvoker.cs:12 | two types each derived from the other are the same type |
| `ElementInvokers.Invoke` | async-dolls/7-AsyncDollsPartial/ElementInvoker.cs:10-13 | succeeds exactly when the behaviour is a link element declared for exactly (TIn, TOut) and the context is null or of TIn or a type derived from it, and then returns the behaviour's own Invoke on the same context and the same `next`; otherwise fails with the behaviour-cast error first, then the context-cast error, then the null-behaviour error |
| `ElementInvokers.BehaviorCastFirst` | async-dolls/7-AsyncDollsPartial/ElementInvoker.cs:12 | when both casts are wrong, the failure reported is the behaviour cast |
| `ElementInvokers.BaseInvokerAcceptsAll` | async-dolls/7-AsyncDollsPartial/ElementInvoker.cs:6-12 | an invoker bound to the base type Context dispatches every context to a matching behaviour |
| `ElementInvokers.ContextCastFollowsDerivation` | async-dolls/7-AsyncDollsPartial/ElementInvoker.cs:12 | a context of a proper base type of TIn is refused with a context-cast error, and one whose type derives from TIn through any chain of types is forwarded |
| `ElementInvokers.DispatchSurround` | async-dolls/7-AsyncDollsPartial/ElementInvoker.cs:12 | only an invoker bound to (T, T) can drive a SurroundStep over T; it then runs the step on the very context it was given, with `next` untouched |
| `ElementInvokers.DispatchBeforeAfter` | async-dolls/7-AsyncDollsPartial/ElementInvoker.cs:12 | only an invoker bound to (T, T), with a context that casts to T, can drive a BeforeStep or an AfterStep over T; dispatched so, each returns its body's run and never reaches `next` |

## Left out

- `async-dolls/1-Async/Script.cs` is not part of this model. It holds teaching demonstrations of parallelism, file I/O, async-void exceptions, process awaiting, a synchronisation-context deadlock and a semaphore-bounded task pump. Their point is concurrency and I/O.
- Task scheduling, `ConfigureAwait(false)` and synchronisation-context capture have no counterpart. Awaiting is sequencing. A cancelled task is a `Fault`, like a faulted one.
- An exception thrown synchronously by a body is not distinguished from a faulted task it returns. Both are a `Fault`.
- The pipeline executor that builds the `next` chain and registers (step, invoker) pairs is not part of this model. `next` is always a parameter. The two chain lemmas compose the adapters by hand.
- `ILinkElement`, `IIncomingStep`, `IElementInvoker` and `Context` are declared elsewhere in the program. Their shape is inferred from IncomingStep.cs:6,9 and ElementInvoker.cs:6-12. `LinkElement` is assumed to declare a single (input, output) pair. The behaviour cast matches that pair exactly, with no generic variance. An adapter over T (`IIncomingStep<T, T>` at IncomingStep.cs:6, 17 and 29) is taken to be a link element for (T, T); the source names only `IIncomingStep`, and `SurroundElement`, `BeforeElement`, `AfterElement`, `DispatchSurround` and `DispatchBeforeAfter` rest on that assumption.
- Context subtyping is a single-inheritance derivation tree. Interfaces and other CLR reflection details are not modelled.
- A surround body is a finite script chosen per context. It can call its continuation any finite number of times, catch the continuation's failure and carry on, or fail on its own. It cannot rethrow a caught fault or inspect a caught error. Loops and timing are not modelled.
- The BeforeStep/AfterStep behaviour that the class names suggest is not modelled: body then `next`, and `next` then body. The code never calls `next`.
- IncomingSteps.Perform: `next` is a pure function, so every call of it within one step yields the identical run. A rest-of-chain whose second run differs from its first is not captured. That happens if the first run mutated the context it was handed by reference, or if a downstream step keeps state of its own, such as a retry that succeeds on its second attempt. `Calls`, `PerformCount` and `SurroundRepeats` rely on this.
