/**
 * Processing contexts and their runtime types. Every context type derives,
 * directly or through other context types, from the base type Context; a
 * type is identified by its name and its base type.
 */
module Contexts {
  import opened Wrappers

  datatype TypeTag = ContextBase | Derived(id: nat, base: TypeTag)

  /**
   * `t` is `u` or derives from it: a cast of a `t` instance to `u` succeeds.
   * A subtype lies at least as deep as its supertype, and strictly deeper
   * unless the two are the same type.
   */
  predicate IsSubtype(t: TypeTag, u: TypeTag)
    ensures IsSubtype(t, u) ==> Depth(u) <= Depth(t) && (Depth(u) == Depth(t) ==> t == u)
  {
    t == u || (t.Derived? && IsSubtype(t.base, u))
  }

  /** How far a type is below the base type Context. */
  function Depth(t: TypeTag): nat
  {
    if t.ContextBase? then 0 else 1 + Depth(t.base)
  }

  /** A context object: its runtime type and its object identity. */
  datatype Context = Context(runtimeType: TypeTag, identity: nat)

  /** A reference to a context; None is the null reference. */
  type ContextRef = Option<Context>

  lemma {:induction false} EveryTypeIsContext(t: TypeTag)
    ensures IsSubtype(t, ContextBase)
  {
    if t.Derived? {
      EveryTypeIsContext(t.base);
    }
  }

  lemma {:induction false} SubtypeTransitive(t: TypeTag, u: TypeTag, v: TypeTag)
    requires IsSubtype(t, u) && IsSubtype(u, v)
    ensures IsSubtype(t, v)
  {
    if t != u {
      SubtypeTransitive(t.base, u, v);
    }
  }

  lemma SubtypeAntisymmetric(t: TypeTag, u: TypeTag)
    requires IsSubtype(t, u) && IsSubtype(u, t)
    ensures t == u
  {
  }
}
