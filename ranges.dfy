/** The `for (let i = lo; i <= hi; i++) list.push(i)` loops that build the
    chapter and verse lists, and the `reduce((sum, n) => sum + n, 0)` sums. */
module Ranges {

  /** The consecutive integers lo, lo+1, ..., hi; empty when lo > hi. */
  function Consecutive(lo: int, hi: int): (r: seq<int>)
    ensures |r| == if lo <= hi then hi - lo + 1 else 0
    ensures forall x :: x in r <==> lo <= x <= hi
    ensures forall j :: 0 <= j < |r| ==> r[j] == lo + j
    ensures forall j, k :: 0 <= j < k < |r| ==> r[j] < r[k]
    decreases hi - lo
  {
    if lo > hi then [] else Consecutive(lo, hi - 1) + [hi]
  }

  /** The push loop itself. */
  method CollectRange(lo: int, hi: int) returns (r: seq<int>)
    ensures r == Consecutive(lo, hi)
  {
    r := [];
    var i := lo;
    while i <= hi
      invariant lo <= i <= if lo <= hi then hi + 1 else lo
      invariant r == Consecutive(lo, i - 1)
      decreases hi - i
    {
      r := r + [i];
      i := i + 1;
    }
  }

  /** `xs.reduce((sum, n) => sum + n, 0)`. */
  function Sum(xs: seq<int>): int {
    if xs == [] then 0 else xs[0] + Sum(xs[1..])
  }

  lemma {:induction false} SumAppend(a: seq<int>, b: seq<int>)
    ensures Sum(a + b) == Sum(a) + Sum(b)
  {
    if a == [] {
      assert a + b == b;
    } else {
      assert (a + b)[0] == a[0];
      assert (a + b)[1..] == a[1..] + b;
      SumAppend(a[1..], b);
    }
  }

  lemma {:induction false} SumNonNegative(xs: seq<int>)
    requires forall i :: 0 <= i < |xs| ==> xs[i] >= 0
    ensures Sum(xs) >= 0
  {
    if xs != [] {
      SumNonNegative(xs[1..]);
    }
  }
}
