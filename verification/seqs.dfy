/** Sums of integer sequences and Python's `sorted`, with the laws the other modules need. */
module Seqs {

  function Sum(xs: seq<int>): int {
    if |xs| == 0 then 0 else Sum(xs[..|xs| - 1]) + xs[|xs| - 1]
  }

  lemma {:induction false} SumUpdate(xs: seq<int>, i: nat, v: int)
    requires i < |xs|
    ensures Sum(xs[i := v]) == Sum(xs) - xs[i] + v
  {
    var n := |xs| - 1;
    if i == n {
      assert xs[i := v][..n] == xs[..n];
    } else {
      assert xs[i := v][..n] == xs[..n][i := v];
      SumUpdate(xs[..n], i, v);
    }
  }

  /** Sums of sequences of equal length differ by the sum of the differences. */
  lemma {:induction false} SumDifference(xs: seq<int>, ys: seq<int>, ds: seq<int>)
    requires |xs| == |ys| == |ds|
    requires forall i :: 0 <= i < |xs| ==> ys[i] == xs[i] + ds[i]
    ensures Sum(ys) == Sum(xs) + Sum(ds)
  {
    if |xs| > 0 {
      var n := |xs| - 1;
      SumDifference(xs[..n], ys[..n], ds[..n]);
    }
  }

  lemma {:induction false} SumNonNegative(xs: seq<int>)
    requires forall i :: 0 <= i < |xs| ==> xs[i] >= 0
    ensures Sum(xs) >= 0
    ensures forall i :: 0 <= i < |xs| ==> xs[i] <= Sum(xs)
  {
    if |xs| > 0 {
      SumNonNegative(xs[..|xs| - 1]);
      assert forall i :: 0 <= i < |xs| - 1 ==> xs[..|xs| - 1][i] == xs[i];
    }
  }

  // ---------------------------------------------------------------- going round once

  lemma Multiples(q: int, n: int)
    requires n > 0
    ensures q >= 2 ==> q * n >= 2 * n
    ensures q <= -1 ==> q * n <= -n
    ensures q == 1 ==> q * n == n
    ensures q == 0 ==> q * n == 0
  {}

  lemma ModOnce(x: int, n: int)
    requires 0 < n && 0 <= x < 2 * n
    ensures x % n == if x < n then x else x - n
  {
    var q := x / n;
    assert x == q * n + x % n;
    Multiples(q, n);
  }

  lemma Wrapped(x: int, n: int)
    requires 0 < n && -n <= x < n
    ensures x % n == if x < 0 then x + n else x
  {
    var q := x / n;
    assert x == q * n + x % n;
    Multiples(q, n);
  }

  // ---------------------------------------------------------------- sorting

  predicate StrictlySorted(xs: seq<int>) {
    forall i, j :: 0 <= i < j < |xs| ==> xs[i] < xs[j]
  }

  function Insert(x: int, xs: seq<int>): seq<int> {
    if xs == [] then [x]
    else if x <= xs[0] then [x] + xs
    else [xs[0]] + Insert(x, xs[1..])
  }

  /** `sorted(xs)`. */
  function Sorted(xs: seq<int>): seq<int> {
    if xs == [] then [] else Insert(xs[|xs| - 1], Sorted(xs[..|xs| - 1]))
  }

  /** `sorted(set(xs))`. */
  function SortedSet(xs: seq<int>): seq<int> {
    if xs == [] then []
    else
      var rest := SortedSet(xs[..|xs| - 1]);
      if xs[|xs| - 1] in rest then rest else Insert(xs[|xs| - 1], rest)
  }

  lemma {:induction false} InsertStrict(x: int, xs: seq<int>)
    requires StrictlySorted(xs) && x !in xs
    ensures StrictlySorted(Insert(x, xs))
    ensures forall y :: y in Insert(x, xs) <==> y == x || y in xs
  {
    if xs != [] && x > xs[0] {
      InsertStrict(x, xs[1..]);
      var r := Insert(x, xs[1..]);
      assert forall y :: y in xs <==> y == xs[0] || y in xs[1..];
      forall k | 0 <= k < |r| ensures xs[0] < r[k] {
        assert r[k] in r;
      }
    }
  }

  lemma {:induction false} SortedSetIsSet(xs: seq<int>)
    ensures StrictlySorted(SortedSet(xs))
    ensures forall y :: y in SortedSet(xs) <==> y in xs
  {
    if xs != [] {
      var n := |xs| - 1;
      SortedSetIsSet(xs[..n]);
      assert xs == xs[..n] + [xs[n]];
      if xs[n] !in SortedSet(xs[..n]) {
        InsertStrict(xs[n], SortedSet(xs[..n]));
      }
    }
  }

  lemma {:induction false} InsertLast(x: int, xs: seq<int>)
    requires forall k :: 0 <= k < |xs| ==> xs[k] < x
    ensures Insert(x, xs) == xs + [x]
  {
    if xs != [] {
      InsertLast(x, xs[1..]);
      assert xs == [xs[0]] + xs[1..];
    }
  }

  lemma {:induction false} SortedIdentity(xs: seq<int>)
    requires StrictlySorted(xs)
    ensures Sorted(xs) == xs
  {
    if xs != [] {
      var n := |xs| - 1;
      SortedIdentity(xs[..n]);
      InsertLast(xs[n], xs[..n]);
      assert xs == xs[..n] + [xs[n]];
    }
  }

  /** Appending a new element to a sorted list and sorting it again inserts the element. */
  lemma SortedAppend(xs: seq<int>, x: int)
    requires StrictlySorted(xs) && x !in xs
    ensures StrictlySorted(Sorted(xs + [x]))
    ensures forall y :: y in Sorted(xs + [x]) <==> y == x || y in xs
  {
    assert (xs + [x])[..|xs|] == xs;
    SortedIdentity(xs);
    InsertStrict(x, xs);
  }

  /** A strictly sorted list is determined by its elements. */
  lemma {:induction false} SortedUnique(xs: seq<int>, ys: seq<int>)
    requires StrictlySorted(xs) && StrictlySorted(ys)
    requires forall y :: y in xs <==> y in ys
    ensures xs == ys
  {
    assert |ys| > 0 ==> ys[0] in ys;
    assert |xs| > 0 ==> xs[0] in xs;
    if xs != [] {
      assert xs[0] == ys[0];
      forall y ensures y in xs[1..] <==> y in ys[1..] {
        assert y in xs <==> y == xs[0] || y in xs[1..];
        assert y in ys <==> y == ys[0] || y in ys[1..];
        assert xs[0] !in xs[1..] && ys[0] !in ys[1..];
      }
      SortedUnique(xs[1..], ys[1..]);
      assert xs == [xs[0]] + xs[1..] && ys == [ys[0]] + ys[1..];
    }
  }
}
