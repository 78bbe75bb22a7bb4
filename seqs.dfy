/**
 * Sequence operations that the components use the way JavaScript uses
 * `Array.prototype.filter`, `map` with a replacement and `sort`.
 */
module Seqs {

  /** `a` is obtained from `b` by deleting elements, keeping the order of the rest. */
  predicate IsSubsequence<T(==)>(a: seq<T>, b: seq<T>)
    decreases |b|
  {
    if b == [] then a == []
    else (a != [] && a[0] == b[0] && IsSubsequence(a[1..], b[1..])) || IsSubsequence(a, b[1..])
  }

  /** `xs.filter(p)`: the elements satisfying `p`, in their original order. */
  function Filter<T(==,!new)>(xs: seq<T>, p: T -> bool): (r: seq<T>)
    ensures |r| <= |xs|
    ensures IsSubsequence(r, xs)
    ensures forall x :: x in r <==> x in xs && p(x)
    ensures forall x :: multiset(r)[x] == if p(x) then multiset(xs)[x] else 0
  {
    if xs == [] then []
    else
      var rest := Filter(xs[1..], p);
      assert xs == [xs[0]] + xs[1..];
      if p(xs[0]) then
        assert ([xs[0]] + rest)[1..] == rest;
        [xs[0]] + rest
      else rest
  }

  lemma {:induction false} FilterAppend<T(!new)>(xs: seq<T>, ys: seq<T>, p: T -> bool)
    ensures Filter(xs + ys, p) == Filter(xs, p) + Filter(ys, p)
  {
    if xs == [] {
      assert xs + ys == ys;
    } else {
      assert (xs + ys)[1..] == xs[1..] + ys;
      FilterAppend(xs[1..], ys, p);
    }
  }

  /** A filter that keeps every element changes nothing. */
  lemma {:induction false} FilterAll<T(!new)>(xs: seq<T>, p: T -> bool)
    requires forall x :: x in xs ==> p(x)
    ensures Filter(xs, p) == xs
  {
    if xs != [] {
      assert forall x :: x in xs[1..] ==> x in xs;
      FilterAll(xs[1..], p);
    }
  }

  /** Filtering by `p` and then by `q` is filtering by both. */
  lemma {:induction false} FilterFilter<T(!new)>(xs: seq<T>, p: T -> bool, q: T -> bool)
    ensures Filter(Filter(xs, p), q) == Filter(xs, x => p(x) && q(x))
  {
    if xs != [] {
      FilterFilter(xs[1..], p, q);
      var rest := Filter(xs[1..], p);
      if p(xs[0]) {
        assert ([xs[0]] + rest)[1..] == rest;
      }
    }
  }

  /** Every element has key at least that of every later element. */
  predicate SortedDesc<T>(s: seq<T>, key: T -> int)
  {
    forall i, j :: 0 <= i < j < |s| ==> key(s[j]) <= key(s[i])
  }

  /** Place `x` before the first element whose key is not larger than its own. */
  function InsertDesc<T>(x: T, s: seq<T>, key: T -> int): (r: seq<T>)
    ensures |r| == |s| + 1
    ensures multiset(r) == multiset(s) + multiset{x}
  {
    if s == [] || key(s[0]) <= key(x) then [x] + s
    else
      assert s == [s[0]] + s[1..];
      [s[0]] + InsertDesc(x, s[1..], key)
  }

  /** Inserting into a sorted sequence keeps it sorted; the new head is `x` or the old head. */
  lemma {:induction false} InsertDescSorted<T>(x: T, s: seq<T>, key: T -> int)
    requires SortedDesc(s, key)
    ensures var r := InsertDesc(x, s, key);
      && (r[0] == x || (s != [] && r[0] == s[0]))
      && SortedDesc(r, key)
  {
    if s != [] && key(s[0]) > key(x) {
      InsertDescSorted(x, s[1..], key);
      var rest := InsertDesc(x, s[1..], key);
      assert forall i :: 0 <= i < |rest| ==> key(rest[i]) <= key(rest[0]);
      var r := [s[0]] + rest;
      assert forall i, j :: 0 < i < j < |r| ==> r[i] == rest[i - 1] && r[j] == rest[j - 1];
    }
  }

  /**
   * Stable sort, largest key first: what `xs.sort((a, b) => key(b) - key(a))`
   * computes (JavaScript's sort is stable since ES2019).
   */
  function SortDesc<T>(xs: seq<T>, key: T -> int): (r: seq<T>)
    ensures |r| == |xs|
    ensures multiset(r) == multiset(xs)
    ensures SortedDesc(r, key)
  {
    if xs == [] then []
    else
      assert xs == [xs[0]] + xs[1..];
      var sorted := SortDesc(xs[1..], key);
      InsertDescSorted(xs[0], sorted, key);
      InsertDesc(xs[0], sorted, key)
  }

  /** The elements whose key is `k`, in their order in `s`. */
  function OfKey<T>(s: seq<T>, key: T -> int, k: int): seq<T>
  {
    if s == [] then []
    else (if key(s[0]) == k then [s[0]] else []) + OfKey(s[1..], key, k)
  }

  /** The elements of key `k` in a sequence with a given head. */
  lemma OfKeyCons<T>(y: T, t: seq<T>, key: T -> int, k: int)
    ensures OfKey([y] + t, key, k) == (if key(y) == k then [y] else []) + OfKey(t, key, k)
  {
    assert ([y] + t)[1..] == t;
  }

  /** Inserting `x` puts it before every element with its key and leaves the other keys' elements alone. */
  lemma {:induction false} InsertDescKeepsTies<T>(x: T, s: seq<T>, key: T -> int, k: int)
    ensures OfKey(InsertDesc(x, s, key), key, k) == (if key(x) == k then [x] else []) + OfKey(s, key, k)
  {
    if s == [] || key(s[0]) <= key(x) {
      assert InsertDesc(x, s, key) == [x] + s;
      OfKeyCons(x, s, key, k);
    } else {
      var rest := InsertDesc(x, s[1..], key);
      var tail := OfKey(s[1..], key, k);
      var head := if key(s[0]) == k then [s[0]] else [];
      var mine := if key(x) == k then [x] else [];
      assert InsertDesc(x, s, key) == [s[0]] + rest;
      assert OfKey(rest, key, k) == mine + tail by {
        InsertDescKeepsTies(x, s[1..], key, k);
      }
      assert OfKey(s, key, k) == head + tail by {
        assert s == [s[0]] + s[1..];
        OfKeyCons(s[0], s[1..], key, k);
      }
      assert OfKey([s[0]] + rest, key, k) == head + (mine + tail) by {
        OfKeyCons(s[0], rest, key, k);
      }
      // `s[0]` has a larger key than `x`, so at most one of `head` and `mine` is non-empty.
      assert head == [] || mine == [];
      assert head + (mine + tail) == mine + (head + tail);
    }
  }

  /** The sort is stable: the elements of any one key come out in their input order. */
  lemma {:induction false} SortDescStable<T>(xs: seq<T>, key: T -> int, k: int)
    ensures OfKey(SortDesc(xs, key), key, k) == OfKey(xs, key, k)
  {
    if xs != [] {
      SortDescStable(xs[1..], key, k);
      InsertDescKeepsTies(xs[0], SortDesc(xs[1..], key), key, k);
    }
  }

  /** A permutation has the same elements: what sorting keeps. */
  lemma SameMultisetSameElements<T>(a: seq<T>, b: seq<T>, x: T)
    requires multiset(a) == multiset(b)
    ensures x in a <==> x in b
  {
    assert x in a <==> x in multiset(a);
    assert x in b <==> x in multiset(b);
  }
}
