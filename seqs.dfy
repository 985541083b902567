/** Generic sequence helpers used by several puzzles: reversal (`rev()`,
    `Vec::reverse`) and the position of the largest element. */
module Seqs {
  /** `iter().rev()`: the elements back to front. */
  function Reverse<T>(xs: seq<T>): (r: seq<T>)
    ensures |r| == |xs|
    ensures forall i | 0 <= i < |xs| :: r[i] == xs[|xs| - 1 - i]
  {
    if xs == [] then [] else Reverse(xs[1..]) + [xs[0]]
  }

  lemma ReverseCons<T>(x: T, xs: seq<T>)
    ensures Reverse([x] + xs) == Reverse(xs) + [x]
  {
    assert ([x] + xs)[1..] == xs;
  }

  /** Reversing twice gives the sequence back. */
  lemma ReverseReverse<T>(xs: seq<T>)
    ensures Reverse(Reverse(xs)) == xs
  {
  }

  lemma ReverseAppend<T>(xs: seq<T>, ys: seq<T>)
    ensures Reverse(xs + ys) == Reverse(ys) + Reverse(xs)
  {
  }

  /** `max_by_key` keeps the LAST of several equal maxima. */
  function LastMaxIndex(xs: seq<nat>): (i: nat)
    requires |xs| > 0
    ensures i < |xs|
    ensures forall j | 0 <= j < |xs| :: xs[j] <= xs[i]
    ensures forall j | i < j < |xs| :: xs[j] < xs[i]
  {
    if |xs| == 1 then 0
    else
      var i := LastMaxIndex(xs[..|xs| - 1]);
      assert forall j | 0 <= j < |xs| - 1 :: xs[..|xs| - 1][j] == xs[j];
      if xs[|xs| - 1] >= xs[i] then |xs| - 1 else i
  }
}
