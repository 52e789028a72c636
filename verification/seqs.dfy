/** Sequence helpers shared by the builders. */
module Seqs {
  /** The concatenation of `f(x)` for each `x` of `xs`, in order. */
  function FlatMap<S, T>(xs: seq<S>, f: S -> seq<T>): seq<T> {
    if |xs| == 0 then [] else f(xs[0]) + FlatMap(xs[1..], f)
  }

  /** Whatever `f` produces for some element ends up in the concatenation. */
  lemma {:induction false} FlatMapContains<S, T>(xs: seq<S>, f: S -> seq<T>, i: nat, e: T)
    requires i < |xs| && e in f(xs[i])
    ensures e in FlatMap(xs, f)
    decreases i
  {
    if i > 0 {
      assert xs[1..][i - 1] == xs[i];
      FlatMapContains(xs[1..], f, i - 1, e);
    }
  }
}
