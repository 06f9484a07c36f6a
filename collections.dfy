/**
 * The lodash helpers the solvers import (sum, uniq, intersection, range),
 * written out over sequences of integers.
 */
module Collections {

  /** A value that may be absent (JavaScript's undefined / null results). */
  datatype Option<T> = None | Some(value: T)

  /** lodash `sum`: the total of the elements (0 for an empty list). */
  function Sum(xs: seq<int>): int
  {
    if xs == [] then 0 else Sum(xs[..|xs| - 1]) + xs[|xs| - 1]
  }

  /** Summing a concatenation is adding the sums. */
  lemma {:induction false} SumAppend(xs: seq<int>, ys: seq<int>)
    ensures Sum(xs + ys) == Sum(xs) + Sum(ys)
    decreases |ys|
  {
    if ys == [] {
      assert xs + ys == xs;
    } else {
      var init := ys[..|ys| - 1];
      assert (xs + ys)[..|xs + ys| - 1] == xs + init;
      SumAppend(xs, init);
    }
  }

  /** A sum of non-negative terms is non-negative and at least each term. */
  lemma {:induction false} SumNonNegative(xs: seq<int>)
    requires forall i :: 0 <= i < |xs| ==> xs[i] >= 0
    ensures Sum(xs) >= 0
    ensures forall i :: 0 <= i < |xs| ==> xs[i] <= Sum(xs)
    decreases |xs|
  {
    if xs != [] {
      SumNonNegative(xs[..|xs| - 1]);
    }
  }

  /** Termwise bounds carry over to the sums. */
  lemma {:induction false} SumMonotone(xs: seq<int>, ys: seq<int>)
    requires |xs| == |ys|
    requires forall i :: 0 <= i < |xs| ==> xs[i] <= ys[i]
    ensures Sum(xs) <= Sum(ys)
    decreases |xs|
  {
    if xs != [] {
      SumMonotone(xs[..|xs| - 1], ys[..|ys| - 1]);
    }
  }

  /** Every element at most `b`: the sum is at most `b` times the length. */
  lemma {:induction false} SumBounded(xs: seq<int>, b: int)
    requires forall i :: 0 <= i < |xs| ==> xs[i] <= b
    ensures Sum(xs) <= b * |xs|
    decreases |xs|
  {
    if xs != [] {
      SumBounded(xs[..|xs| - 1], b);
    }
  }

  /** Replacing one element changes the sum by the difference. */
  lemma {:induction false} SumUpdate(xs: seq<int>, p: nat, v: int)
    requires p < |xs|
    ensures Sum(xs[p := v]) == Sum(xs) - xs[p] + v
    decreases |xs|
  {
    var ys := xs[p := v];
    var n := |xs| - 1;
    assert ys[..n] == if p < n then xs[..n][p := v] else xs[..n];
    if p < n {
      SumUpdate(xs[..n], p, v);
    }
  }

  /** No value occurs twice. */
  predicate NoDup(xs: seq<int>)
  {
    forall i, j :: 0 <= i < j < |xs| ==> xs[i] != xs[j]
  }

  /** lodash `uniq`: the first occurrence of each value, in order of first occurrence. */
  function Uniq(xs: seq<int>): (r: seq<int>)
    ensures NoDup(r)
    ensures forall x :: x in r <==> x in xs
    ensures |r| <= |xs|
  {
    if xs == [] then []
    else
      var u := Uniq(xs[..|xs| - 1]);
      var x := xs[|xs| - 1];
      assert forall y :: y in xs <==> y in xs[..|xs| - 1] || y == x;
      if x in u then u else u + [x]
  }

  /** A list that is already duplicate-free is its own uniq. */
  lemma {:induction false} UniqOfNoDup(xs: seq<int>)
    requires NoDup(xs)
    ensures Uniq(xs) == xs
    decreases |xs|
  {
    if xs != [] {
      var init := xs[..|xs| - 1];
      UniqOfNoDup(init);
      assert xs[|xs| - 1] !in init;
      assert init + [xs[|xs| - 1]] == xs;
    }
  }

  /**
   * lodash `intersection` of two lists: the values of `xs` that also occur in
   * `ys`, each once, in their order in `xs`.
   */
  function Intersection(xs: seq<int>, ys: seq<int>): (r: seq<int>)
    ensures NoDup(r)
    ensures forall x :: x in r <==> x in xs && x in ys
    ensures |r| <= |xs|
  {
    if xs == [] then []
    else
      var r0 := Intersection(xs[..|xs| - 1], ys);
      var x := xs[|xs| - 1];
      assert forall y :: y in xs <==> y in xs[..|xs| - 1] || y == x;
      if x in ys && x !in r0 then r0 + [x] else r0
  }

  /** A duplicate-free list has as many elements as the set of its values. */
  lemma {:induction false} NoDupCard(xs: seq<int>)
    requires NoDup(xs)
    ensures |set x | x in xs| == |xs|
    decreases |xs|
  {
    if xs != [] {
      var init := xs[..|xs| - 1];
      NoDupCard(init);
      assert (set x | x in xs) == (set x | x in init) + {xs[|xs| - 1]};
      assert xs[|xs| - 1] !in (set x | x in init);
    }
  }

  /** A duplicate-free list whose values all occur in a duplicate-free `ys` is no longer than `ys`. */
  lemma NoDupSubsetLength(xs: seq<int>, ys: seq<int>)
    requires NoDup(xs) && NoDup(ys)
    requires forall x :: x in xs ==> x in ys
    ensures |xs| <= |ys|
  {
    NoDupCard(xs);
    NoDupCard(ys);
    var a, b := set x | x in xs, set y | y in ys;
    assert a <= b;
    assert |b| == |a| + |b - a| by {
      assert b == a + (b - a);
    }
  }

  /** The intersection of two duplicate-free lists is no longer than either. */
  lemma IntersectionLength(xs: seq<int>, ys: seq<int>)
    requires NoDup(ys)
    ensures |Intersection(xs, ys)| <= |xs|
    ensures |Intersection(xs, ys)| <= |ys|
  {
    NoDupSubsetLength(Intersection(xs, ys), ys);
  }

  /** lodash `range(start, end)` for start <= end: start, start + 1, ..., end - 1. */
  function Range(start: int, end: int): (r: seq<int>)
    requires start <= end
    ensures |r| == end - start
    ensures forall i :: 0 <= i < |r| ==> r[i] == start + i
    decreases end - start
  {
    if start == end then [] else [start] + Range(start + 1, end)
  }
}
