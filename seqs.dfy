/** Facts about sequences shared by the browser filter and the database model. */
module Seqs {

  /** `xs` is `ys` with some elements left out, the rest in their original order. */
  ghost predicate IsSubsequence<T>(xs: seq<T>, ys: seq<T>)
    decreases |ys|
  {
    || |xs| == 0
    || (|ys| > 0 && ((xs[0] == ys[0] && IsSubsequence(xs[1..], ys[1..])) || IsSubsequence(xs, ys[1..])))
  }
}
