/**
 * What awaiting a `Task` leaves behind, with scheduling abstracted away: an
 * outcome and the observable effects produced while it ran, in order.
 * `await` is plain sequencing here; a faulted or a cancelled Task is a Fault,
 * which an `await` rethrows.
 */
module Tasks {

  datatype Outcome = Ok | Fault(error: string)

  /** A completed run: how it ended, and its effects in the order they happened. */
  datatype Run<E> = Run(outcome: Outcome, trace: seq<E>)

  /** `effects` happened first, then `r` ran to its end. */
  function Prepend<E>(effects: seq<E>, r: Run<E>): Run<E>
  {
    Run(r.outcome, effects + r.trace)
  }

  /** How many times `x` occurs in `s`. */
  function Count<E(==)>(x: E, s: seq<E>): nat
  {
    if s == [] then 0 else (if s[0] == x then 1 else 0) + Count(x, s[1..])
  }

  lemma {:induction false} CountAppend<E>(x: E, s: seq<E>, t: seq<E>)
    ensures Count(x, s + t) == Count(x, s) + Count(x, t)
  {
    if s != [] {
      assert (s + t)[1..] == s[1..] + t;
      CountAppend(x, s[1..], t);
    } else {
      assert s + t == t;
    }
  }
}
