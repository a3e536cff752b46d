/**
 * ElementInvoker<TIn, TOut>: lets the pipeline hold steps as plain objects and
 * still call them through their typed contract. It casts the behaviour to the
 * link element for (TIn, TOut), casts the context to TIn, and forwards `next`
 * unchanged. The invoker has no fields; its generic arguments are its only data.
 */
module ElementInvokers {
  import opened Wrappers
  import opened Tasks
  import opened Contexts
  import opened IncomingSteps

  /**
   * A behaviour that implements the link element for its declared (input,
   * output) context types. Its Invoke receives the (cast) context and the
   * continuation for the rest of the chain.
   */
  datatype LinkElement<!E> = LinkElement(
    input: TypeTag,
    output: TypeTag,
    invoke: (ContextRef, Next<ContextRef, E>) -> Run<E>)

  /** ElementInvoker<TIn, TOut>, identified by its generic arguments. */
  datatype ElementInvoker = ElementInvoker(tIn: TypeTag, tOut: TypeTag)

  /** Which of the two casts failed. */
  datatype CastSite = BehaviorCast | ContextCast

  /** What Invoke throws before any step runs. */
  datatype InvokeError =
    | TypeMismatch(site: CastSite) // InvalidCastException
    | NullBehavior                 // NullReferenceException on a null behaviour

  /** The behaviour cast succeeds on a link element declared for exactly the invoker's (TIn, TOut). */
  predicate Implements<E>(behavior: LinkElement<E>, invoker: ElementInvoker)
  {
    behavior.input == invoker.tIn && behavior.output == invoker.tOut
  }

  /** The context cast succeeds on null and on an instance of `t` or of a type derived from it. */
  predicate ViewableAs(context: ContextRef, t: TypeTag)
  {
    context.None? || IsSubtype(context.value.runtimeType, t)
  }

  /**
   * ElementInvoker.Invoke(behavior, context, next). The cast of the behaviour
   * is evaluated first, then the cast of the context, and only then is the
   * call made on the behaviour, which fails if it is null.
   */
  function Invoke<E>(invoker: ElementInvoker, behavior: Option<LinkElement<E>>, context: ContextRef,
                     next: Next<ContextRef, E>): (r: Result<Run<E>, InvokeError>)
    ensures r.Success? <==>
              behavior.Some? && Implements(behavior.value, invoker) && ViewableAs(context, invoker.tIn)
    ensures r.Success? ==> r.value == behavior.value.invoke(context, next)
    ensures behavior.Some? && !Implements(behavior.value, invoker) ==>
              r == Failure(TypeMismatch(BehaviorCast))
    ensures (behavior.None? || Implements(behavior.value, invoker)) && !ViewableAs(context, invoker.tIn) ==>
              r == Failure(TypeMismatch(ContextCast))
    ensures behavior.None? && ViewableAs(context, invoker.tIn) ==> r == Failure(NullBehavior)
  {
    if behavior.Some? && !Implements(behavior.value, invoker) then Failure(TypeMismatch(BehaviorCast))
    else if !ViewableAs(context, invoker.tIn) then Failure(TypeMismatch(ContextCast))
    else if behavior.None? then Failure(NullBehavior)
    else Success(behavior.value.invoke(context, next))
  }

  /** When both casts are wrong, the failure is the behaviour's. */
  lemma BehaviorCastFirst<E>(invoker: ElementInvoker, behavior: LinkElement<E>, context: Context,
                             next: Next<ContextRef, E>)
    requires !Implements(behavior, invoker)
    requires !IsSubtype(context.runtimeType, invoker.tIn)
    ensures Invoke(invoker, Some(behavior), Some(context), next) == Failure(TypeMismatch(BehaviorCast))
  {
  }

  /** An invoker bound to the base type Context accepts every context. */
  lemma BaseInvokerAcceptsAll<E>(behavior: LinkElement<E>, context: ContextRef, next: Next<ContextRef, E>)
    requires behavior.input == ContextBase
    ensures Invoke(ElementInvoker(ContextBase, behavior.output), Some(behavior), context, next)
         == Success(behavior.invoke(context, next))
  {
    if context.Some? {
      EveryTypeIsContext(context.value.runtimeType);
    }
  }

  /**
   * A context whose runtime type is a proper base type of TIn is refused,
   * and one whose type derives from a type derived from TIn is accepted.
   */
  lemma ContextCastFollowsDerivation<E>(invoker: ElementInvoker, behavior: LinkElement<E>, context: Context,
                                       next: Next<ContextRef, E>)
    requires Implements(behavior, invoker)
    ensures IsSubtype(invoker.tIn, context.runtimeType) && context.runtimeType != invoker.tIn ==>
              Invoke(invoker, Some(behavior), Some(context), next) == Failure(TypeMismatch(ContextCast))
    ensures forall mid :: IsSubtype(context.runtimeType, mid) && IsSubtype(mid, invoker.tIn) ==>
              Invoke(invoker, Some(behavior), Some(context), next) == Success(behavior.invoke(Some(context), next))
  {
    if IsSubtype(invoker.tIn, context.runtimeType) && context.runtimeType != invoker.tIn {
      if IsSubtype(context.runtimeType, invoker.tIn) {
        SubtypeAntisymmetric(context.runtimeType, invoker.tIn);
      }
    }
    forall mid | IsSubtype(context.runtimeType, mid) && IsSubtype(mid, invoker.tIn)
      ensures IsSubtype(context.runtimeType, invoker.tIn)
    {
      SubtypeTransitive(context.runtimeType, mid, invoker.tIn);
    }
  }

  // ---------------------------------------------------------------------------
  // The adapters as link elements: each consumes and hands on one context type.
  // ---------------------------------------------------------------------------

  function SurroundElement<E>(t: TypeTag, body: ContextRef -> Body<E>): LinkElement<E>
  {
    LinkElement(t, t, (c, n) => SurroundInvoke(body, c, n))
  }

  function BeforeElement<E>(t: TypeTag, body: ContextRef -> Run<E>): LinkElement<E>
  {
    LinkElement(t, t, (c, n) => BeforeInvoke(body, c, n))
  }

  function AfterElement<E>(t: TypeTag, body: ContextRef -> Run<E>): LinkElement<E>
  {
    LinkElement(t, t, (c, n) => AfterInvoke(body, c, n))
  }

  /**
   * Only an invoker bound to (T, T) can drive a SurroundStep over T; it then
   * runs the step on the very context it was given, with next untouched.
   */
  lemma DispatchSurround<E>(invoker: ElementInvoker, t: TypeTag, body: ContextRef -> Body<E>,
                            context: ContextRef, next: Next<ContextRef, E>)
    ensures Invoke(invoker, Some(SurroundElement(t, body)), context, next).Success?
        <==> invoker == ElementInvoker(t, t) && ViewableAs(context, t)
    ensures Invoke(invoker, Some(SurroundElement(t, body)), context, next).Success? ==>
              Invoke(invoker, Some(SurroundElement(t, body)), context, next).value
              == SurroundInvoke(body, context, next)
  {
  }

  /**
   * Only an invoker bound to (T, T) can drive a BeforeStep or an AfterStep
   * over T; dispatched so, each returns its body's run and never reaches next.
   */
  lemma DispatchBeforeAfter<E>(invoker: ElementInvoker, t: TypeTag, body: ContextRef -> Run<E>,
                               context: ContextRef, next: Next<ContextRef, E>)
    ensures Invoke(invoker, Some(BeforeElement(t, body)), context, next).Success?
        <==> invoker == ElementInvoker(t, t) && ViewableAs(context, t)
    ensures Invoke(invoker, Some(AfterElement(t, body)), context, next).Success?
        <==> invoker == ElementInvoker(t, t) && ViewableAs(context, t)
    ensures Invoke(invoker, Some(BeforeElement(t, body)), context, next).Success? ==>
              Invoke(invoker, Some(BeforeElement(t, body)), context, next).value == body(context)
    ensures Invoke(invoker, Some(AfterElement(t, body)), context, next).Success? ==>
              Invoke(invoker, Some(AfterElement(t, body)), context, next).value == body(context)
  {
  }
}
