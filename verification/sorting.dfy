/** The pages' `[...xs].sort((a, b) => key(b) - key(a))`: a stable sort by an integer key,
    largest key first. JavaScript's `Array.prototype.sort` is stable, so elements with equal
    keys keep their original relative order; the insertion sort below has the same result. */
module Sorting {
  import Numeric

  ghost predicate SortedDesc<T>(xs: seq<T>, key: T -> int) {
    forall i, j :: 0 <= i < j < |xs| ==> key(xs[i]) >= key(xs[j])
  }

  /** Places `x` in front of the first element whose key is not larger than its own. */
  function Insert<T>(x: T, xs: seq<T>, key: T -> int): (r: seq<T>)
    requires SortedDesc(xs, key)
    ensures SortedDesc(r, key)
    ensures multiset(r) == multiset(xs) + multiset{x}
    ensures |r| == |xs| + 1
  {
    if |xs| == 0 || key(x) >= key(xs[0]) then
      [x] + xs
    else
      var rest := Insert(x, xs[1..], key);
      assert xs == [xs[0]] + xs[1..];
      assert forall j :: 0 <= j < |rest| ==> rest[j] in multiset(rest);
      [xs[0]] + rest
  }

  /** The sorted copy: same elements, same number of times, largest key first. */
  function SortDesc<T>(xs: seq<T>, key: T -> int): (r: seq<T>)
    ensures SortedDesc(r, key)
    ensures multiset(r) == multiset(xs)
    ensures |r| == |xs|
  {
    if |xs| == 0 then []
    else
      assert xs == [xs[0]] + xs[1..];
      Insert(xs[0], SortDesc(xs[1..], key), key)
  }

  /** The elements of `xs` whose key is `k`, in their order in `xs`. */
  function KeyRun<T>(xs: seq<T>, key: T -> int, k: int): seq<T> {
    if |xs| == 0 then []
    else (if key(xs[0]) == k then [xs[0]] else []) + KeyRun(xs[1..], key, k)
  }

  lemma {:induction false} InsertKeyRun<T>(x: T, ys: seq<T>, key: T -> int, k: int)
    requires SortedDesc(ys, key)
    ensures KeyRun(Insert(x, ys, key), key, k)
         == (if key(x) == k then [x] else []) + KeyRun(ys, key, k)
  {
    var r := Insert(x, ys, key);
    if |ys| == 0 || key(x) >= key(ys[0]) {
      assert r[1..] == ys;
    } else {
      assert r[1..] == Insert(x, ys[1..], key);
      InsertKeyRun(x, ys[1..], key, k);
    }
  }

  /** Stability: for every key value, the elements carrying it appear in the sorted copy in
      the same order as in the input. */
  lemma {:induction false} SortStable<T>(xs: seq<T>, key: T -> int, k: int)
    ensures KeyRun(SortDesc(xs, key), key, k) == KeyRun(xs, key, k)
  {
    if |xs| > 0 {
      SortStable(xs[1..], key, k);
      InsertKeyRun(xs[0], SortDesc(xs[1..], key), key, k);
    }
  }

  function Reverse<T>(xs: seq<T>): (r: seq<T>)
    ensures |r| == |xs|
    ensures forall i :: 0 <= i < |xs| ==> r[i] == xs[|xs| - 1 - i]
  {
    if |xs| == 0 then [] else Reverse(xs[1..]) + [xs[0]]
  }

  lemma {:induction false} InsertSmallest<T>(x: T, ys: seq<T>, key: T -> int)
    requires SortedDesc(ys, key)
    requires forall i :: 0 <= i < |ys| ==> key(x) < key(ys[i])
    ensures Insert(x, ys, key) == ys + [x]
  {
    if |ys| > 0 {
      InsertSmallest(x, ys[1..], key);
      assert ys == [ys[0]] + ys[1..];
    }
  }

  /** A list in strictly ascending key order is shown reversed. */
  lemma {:induction false} SortAscendingReverses<T>(xs: seq<T>, key: T -> int)
    requires forall i, j :: 0 <= i < j < |xs| ==> key(xs[i]) < key(xs[j])
    ensures SortDesc(xs, key) == Reverse(xs)
  {
    if |xs| > 0 {
      SortAscendingReverses(xs[1..], key);
      InsertSmallest(xs[0], Reverse(xs[1..]), key);
    }
  }

  /** `xs.slice(0, n)`. */
  function Take<T>(xs: seq<T>, n: nat): (r: seq<T>)
    ensures |r| == Numeric.Min(n, |xs|)
    ensures r == xs[..|r|]
  {
    if n >= |xs| then xs else xs[..n]
  }

  /** The first `n` of the sorted copy are the `n` largest: each is drawn from the input, they
      are in descending order, and no input element left out has a larger key. */
  lemma TopOfSorted<T>(xs: seq<T>, key: T -> int, n: nat)
    ensures var t := Take(SortDesc(xs, key), n);
      && |t| == Numeric.Min(n, |xs|)
      && SortedDesc(t, key)
      && multiset(t) <= multiset(xs)
      && forall i, y :: 0 <= i < |t| && y in multiset(xs) - multiset(t) ==> key(t[i]) >= key(y)
  {
    var s := SortDesc(xs, key);
    var k := Numeric.Min(n, |xs|);
    var t := Take(s, n);
    assert t == s[..k];
    SplitMultiset(s, k);
    assert multiset(xs) - multiset(t) == multiset(s[k..]);
    PrefixDominates(s, key, k);
  }

  /** In a sorted sequence, everything before position `k` dominates everything from it on. */
  lemma PrefixDominates<T>(s: seq<T>, key: T -> int, k: nat)
    requires SortedDesc(s, key) && k <= |s|
    ensures SortedDesc(s[..k], key)
    ensures forall i, y :: 0 <= i < k && y in multiset(s[k..]) ==> key(s[i]) >= key(y)
  {
    forall i, y | 0 <= i < k && y in multiset(s[k..])
      ensures key(s[i]) >= key(y)
    {
      var j :| k <= j < |s| && s[j] == y;
    }
  }

  lemma SplitMultiset<T>(s: seq<T>, k: nat)
    requires k <= |s|
    ensures multiset(s) == multiset(s[..k]) + multiset(s[k..])
  {
    assert s == s[..k] + s[k..];
  }
}
