/**
 * Order-preserving subsequences: the relation between a filtered list and
 * the list it was filtered from.
 */
module Sequences {
  /** `xs` is an order-preserving subsequence of `ys`. */
  predicate IsSubsequence<T(==)>(xs: seq<T>, ys: seq<T>)
    decreases |ys|
  {
    if |xs| == 0 then true
    else if |ys| == 0 then false
    else if xs[0] == ys[0] then IsSubsequence(xs[1..], ys[1..])
    else IsSubsequence(xs, ys[1..])
  }

  /** Putting an element in front of the larger list keeps the relation. */
  lemma SubsequenceSkip<T>(xs: seq<T>, ys: seq<T>)
    requires |ys| > 0 && IsSubsequence(xs, ys[1..])
    ensures IsSubsequence(xs, ys)
    decreases |ys|, |xs|
  {
    if |xs| > 0 && xs[0] == ys[0] {
      SubsequenceDrop(xs, ys[1..]);
    }
  }

  /** Dropping the head of the subsequence keeps the relation. */
  lemma SubsequenceDrop<T>(xs: seq<T>, ys: seq<T>)
    requires |xs| > 0 && IsSubsequence(xs, ys)
    ensures IsSubsequence(xs[1..], ys)
    decreases |ys|, |xs|
  {
    if |xs[1..]| > 0 && |ys| > 0 {
      if xs[0] == ys[0] {
        SubsequenceSkip(xs[1..], ys);
      } else {
        SubsequenceDrop(xs, ys[1..]);
        SubsequenceSkip(xs[1..], ys);
      }
    }
  }
}
