/** Rewriting steps on sequences that the verifier takes only when told to. */
module Sequences {

  lemma Assoc<T>(a: seq<T>, b: seq<T>, c: seq<T>)
    ensures a + (b + c) == a + b + c
  {}

  /** Moves the border between `a` and `b` over the first element of `b`. */
  lemma Unfold<T>(a: seq<T>, b: seq<T>)
    ensures (a + b)[..|a|] == a && (a + b)[|a|..] == b
    ensures b != [] ==> a + b == a + [b[0]] + b[1..] && |a + [b[0]]| == |a| + 1
    ensures b != [] ==> (a + b)[|a|] == b[0] && (a + b)[|a| + 1..] == b[1..]
  {}

  lemma HeadAndTail<T>(xs: seq<T>)
    requires |xs| > 1
    ensures xs == [xs[0]] + xs[1..]
    ensures xs[..|xs| - 1] == [xs[0]] + xs[1..][..|xs| - 2]
    ensures xs[1..][|xs| - 2] == xs[|xs| - 1]
  {}
}
