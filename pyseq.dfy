/**
 * Python list operations the backend relies on: the negative-index tail
 * slice `xs[-n:]` (used for `limit` queries and for the bounded windows),
 * and sum / mean of a list of numbers.
 */
module PySeq {

  /** The start index Python uses for `xs[-n:]` on a list of length `len`. */
  function TailStart(len: nat, n: int): (start: nat)
    ensures start <= len
  {
    if n > 0 then (if n <= len then len - n else 0)
    else if -n <= len then -n
    else len
  }

  /** `xs[-n:]` exactly as Python evaluates it, for every integer `n`. */
  function TailSlice<T>(xs: seq<T>, n: int): seq<T> {
    xs[TailStart(|xs|, n)..]
  }

  /** For n > 0, `xs[-n:]` is the last min(n, |xs|) elements, in order. */
  lemma TailSlicePositive<T>(xs: seq<T>, n: int)
    requires n > 0
    ensures |TailSlice(xs, n)| == if n < |xs| then n else |xs|
    ensures |TailSlice(xs, n)| <= n
    ensures forall i :: 0 <= i < |TailSlice(xs, n)| ==>
              TailSlice(xs, n)[i] == xs[|xs| - |TailSlice(xs, n)| + i]
  {
  }

  /** `xs[-0:]` is `xs[0:]`: the whole list, not an empty one. */
  lemma TailSliceZero<T>(xs: seq<T>)
    ensures TailSlice(xs, 0) == xs
  {
  }

  /** For n < 0, `xs[-n:]` drops the first |n| elements instead. */
  lemma TailSliceNegative<T>(xs: seq<T>, n: int)
    requires n < 0
    ensures TailSlice(xs, n) == if -n <= |xs| then xs[-n..] else []
  {
  }

  /** Appending one element and keeping the last `n` (n > 0) is a bounded window. */
  lemma TailSliceAppend<T>(xs: seq<T>, x: T, n: int)
    requires n > 0
    ensures |TailSlice(xs + [x], n)| <= n
    ensures TailSlice(xs + [x], n) != []
    ensures TailSlice(xs + [x], n)[|TailSlice(xs + [x], n)| - 1] == x
    ensures TailSlice(xs + [x], n) == TailSlice(TailSlice(xs, n) + [x], n)
  {
    var ys := TailSlice(xs, n);
    var l := xs + [x];
    var r := ys + [x];
    assert TailStart(|l|, n) + (|r| - TailStart(|r|, n)) == |l| by {
      if n <= |xs| { assert |ys| == n; } else { assert ys == xs; }
    }
    assert l[TailStart(|l|, n)..] == r[TailStart(|r|, n)..];
  }

  function Sum(xs: seq<real>): real {
    if |xs| == 0 then 0.0 else Sum(xs[..|xs| - 1]) + xs[|xs| - 1]
  }

  lemma SumAppend(xs: seq<real>, x: real)
    ensures Sum(xs + [x]) == Sum(xs) + x
  {
    assert (xs + [x])[..|xs|] == xs;
  }

  /** `sum(xs) / len(xs)`, defined for non-empty lists. */
  function Mean(xs: seq<real>): real
    requires |xs| > 0
  {
    Sum(xs) / (|xs| as real)
  }

  /** Every element lies in [lo, hi], so the mean does too. */
  lemma {:induction false} SumBounds(xs: seq<real>, lo: real, hi: real)
    requires forall i :: 0 <= i < |xs| ==> lo <= xs[i] <= hi
    ensures (|xs| as real) * lo <= Sum(xs) <= (|xs| as real) * hi
  {
    if |xs| > 0 {
      SumBounds(xs[..|xs| - 1], lo, hi);
    }
  }

  lemma MeanBounds(xs: seq<real>, lo: real, hi: real)
    requires |xs| > 0
    requires forall i :: 0 <= i < |xs| ==> lo <= xs[i] <= hi
    ensures lo <= Mean(xs) <= hi
  {
    SumBounds(xs, lo, hi);
    var n := |xs| as real;
    assert Sum(xs) / n >= lo by { assert Sum(xs) >= n * lo; }
    assert Sum(xs) / n <= hi by { assert Sum(xs) <= n * hi; }
  }

  function SumInt(xs: seq<int>): int {
    if |xs| == 0 then 0 else SumInt(xs[..|xs| - 1]) + xs[|xs| - 1]
  }

  lemma SumIntAppend(xs: seq<int>, x: int)
    ensures SumInt(xs + [x]) == SumInt(xs) + x
  {
    assert (xs + [x])[..|xs|] == xs;
  }
}
