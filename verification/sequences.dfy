/** Conditional appends: the building block of every list the engine grows
    rule by rule. */
module Sequences {

  /** The one-element sequence `[x]` when `b` holds, otherwise nothing. */
  function When<T>(b: bool, x: T): seq<T>
  {
    if b then [x] else []
  }

  /** One `if b { s := s + [x]; }` step, stated as a conditional append. */
  lemma AppendedWhen<T>(prev: seq<T>, b: bool, x: T, s: seq<T>)
    requires s == if b then prev + [x] else prev
    ensures s == prev + When(b, x)
  {
  }
}
