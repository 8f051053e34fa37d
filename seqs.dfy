/** Sequence helpers for the Swift collection calls the store relies on:
    `Array.reversed()` and `Sequence.reduce(_:_:)`. */
module Seqs {

  /** `xs.reversed()`: the same elements, last first. */
  function Reversed<T>(xs: seq<T>): (r: seq<T>)
    ensures |r| == |xs|
    ensures forall i :: 0 <= i < |xs| ==> r[i] == xs[|xs| - 1 - i]
  {
    if xs == [] then [] else Reversed(xs[1..]) + [xs[0]]
  }

  /** `xs.reduce(initial, combine)`: combine the accumulator with each element, first to last. */
  function FoldLeft<T, U>(xs: seq<T>, initial: U, combine: (U, T) -> U): U
  {
    if xs == [] then initial else FoldLeft(xs[1..], combine(initial, xs[0]), combine)
  }

  /** Folding a concatenation folds the second part from where the first part left off. */
  lemma {:induction false} FoldLeftAppend<T, U>(xs: seq<T>, ys: seq<T>, initial: U, combine: (U, T) -> U)
    ensures FoldLeft(xs + ys, initial, combine) == FoldLeft(ys, FoldLeft(xs, initial, combine), combine)
  {
    if xs == [] {
      assert xs + ys == ys;
    } else {
      assert (xs + ys)[1..] == xs[1..] + ys;
      FoldLeftAppend(xs[1..], ys, combine(initial, xs[0]), combine);
    }
  }
}
