/**
 Order-preserving filtering of lists (JavaScript's `Array.prototype.filter`),
 with an independent characterisation: the filtered list is the one
 subsequence of the input that keeps every element satisfying the
 predicate, as often as it occurs, and no other element.
 */
module Seqs {

  /** `r` can be obtained from `xs` by deleting elements, keeping the order. */
  ghost predicate IsSubsequence<T>(r: seq<T>, xs: seq<T>)
    decreases |xs|
  {
    r == [] ||
    (xs != [] &&
     ((r[0] == xs[0] && IsSubsequence(r[1..], xs[1..])) || IsSubsequence(r, xs[1..])))
  }

  /** No element occurs twice. */
  ghost predicate Distinct<T>(xs: seq<T>) {
    forall i, j :: 0 <= i < j < |xs| ==> xs[i] != xs[j]
  }

  /** No two elements share a key. */
  ghost predicate DistinctBy<T, K>(key: T -> K, xs: seq<T>) {
    forall i, j :: 0 <= i < j < |xs| ==> key(xs[i]) != key(xs[j])
  }

  /** The elements of `xs` that satisfy `p`, in their original order. */
  function Filter<T(!new)>(p: T -> bool, xs: seq<T>): (r: seq<T>)
    ensures |r| <= |xs|
    ensures forall x :: x in r <==> x in xs && p(x)
    ensures forall x :: multiset(r)[x] == if p(x) then multiset(xs)[x] else 0
    ensures IsSubsequence(r, xs)
  {
    if xs == [] then []
    else
      var rest := Filter(p, xs[1..]);
      assert xs == [xs[0]] + xs[1..];
      if p(xs[0]) then
        assert ([xs[0]] + rest)[1..] == rest;
        [xs[0]] + rest
      else rest
  }

  /** Filtering with a predicate every element satisfies changes nothing. */
  lemma {:induction false} FilterAll<T(!new)>(p: T -> bool, xs: seq<T>)
    requires forall x :: x in xs ==> p(x)
    ensures Filter(p, xs) == xs
  {
    if xs != [] {
      FilterAll(p, xs[1..]);
      assert xs == [xs[0]] + xs[1..];
    }
  }

  /** Filtering distributes over concatenation. */
  lemma {:induction false} FilterAppend<T(!new)>(p: T -> bool, xs: seq<T>, ys: seq<T>)
    ensures Filter(p, xs + ys) == Filter(p, xs) + Filter(p, ys)
  {
    if xs == [] {
      assert xs + ys == ys;
    } else {
      assert (xs + ys)[1..] == xs[1..] + ys;
      FilterAppend(p, xs[1..], ys);
    }
  }

  /** Filtering keeps a list free of duplicates. */
  lemma {:induction false} FilterDistinct<T(!new)>(p: T -> bool, xs: seq<T>)
    requires Distinct(xs)
    ensures Distinct(Filter(p, xs))
  {
    if xs != [] {
      FilterDistinct(p, xs[1..]);
      var rest := Filter(p, xs[1..]);
      assert forall k :: 0 <= k < |xs| - 1 ==> xs[1..][k] == xs[k + 1];
      assert xs[0] !in xs[1..];
      assert xs[0] !in rest;
    }
  }

  /** The tail of a list with distinct keys has distinct keys, none of them
      the head's. */
  lemma DistinctByTail<T, K>(key: T -> K, xs: seq<T>)
    requires xs != [] && DistinctBy(key, xs)
    ensures DistinctBy(key, xs[1..])
    ensures forall y :: y in xs[1..] ==> key(y) != key(xs[0])
  {
    forall y | y in xs[1..]
      ensures key(y) != key(xs[0])
    {
      var k :| 0 <= k < |xs[1..]| && xs[1..][k] == y;
      assert xs[k + 1] == y;
    }
  }

  /** Putting an element with a new key in front keeps keys distinct. */
  lemma DistinctByCons<T, K>(key: T -> K, x: T, rest: seq<T>)
    requires DistinctBy(key, rest)
    requires forall y :: y in rest ==> key(y) != key(x)
    ensures DistinctBy(key, [x] + rest)
  {
    var r := [x] + rest;
    forall i, j | 0 <= i < j < |r|
      ensures key(r[i]) != key(r[j])
    {
      assert r[j] == rest[j - 1];
      if i > 0 {
        assert r[i] == rest[i - 1];
      }
    }
  }

  /** Filtering keeps keys pairwise distinct. */
  lemma {:induction false} FilterDistinctBy<T(!new), K>(key: T -> K, p: T -> bool, xs: seq<T>)
    requires DistinctBy(key, xs)
    ensures DistinctBy(key, Filter(p, xs))
  {
    if xs != [] {
      DistinctByTail(key, xs);
      FilterDistinctBy(key, p, xs[1..]);
      if p(xs[0]) {
        DistinctByCons(key, xs[0], Filter(p, xs[1..]));
      }
    }
  }

  /** A subsequence never holds an element more often than the list it was
      taken from. */
  lemma {:induction false} SubsequenceMultiset<T>(r: seq<T>, xs: seq<T>)
    requires IsSubsequence(r, xs)
    ensures multiset(r) <= multiset(xs)
    decreases |xs|
  {
    if r != [] {
      assert xs == [xs[0]] + xs[1..];
      if r[0] == xs[0] && IsSubsequence(r[1..], xs[1..]) {
        SubsequenceMultiset(r[1..], xs[1..]);
        assert r == [r[0]] + r[1..];
      } else {
        SubsequenceMultiset(r, xs[1..]);
      }
    }
  }

  /** The characterisation is complete: a subsequence of `xs` that keeps each
      element satisfying `p` exactly as often as `xs` has it, and no other
      element, is `Filter(p, xs)`. */
  lemma {:induction false} FilterUnique<T(!new)>(p: T -> bool, xs: seq<T>, r: seq<T>)
    requires IsSubsequence(r, xs)
    requires forall x :: multiset(r)[x] == if p(x) then multiset(xs)[x] else 0
    ensures r == Filter(p, xs)
    decreases |xs|
  {
    if xs == [] {
      assert r == [];
    } else {
      var h, t := xs[0], xs[1..];
      assert xs == [h] + t;
      if r != [] && r[0] == h && IsSubsequence(r[1..], t) {
        assert r == [h] + r[1..];
        if p(h) {
          forall x ensures multiset(r[1..])[x] == if p(x) then multiset(t)[x] else 0 {
          }
          FilterUnique(p, t, r[1..]);
        } else {
          assert false;
        }
      } else {
        assert r == [] || IsSubsequence(r, t);
        SubsequenceMultiset(r, t);
        if p(h) {
          assert false;
        } else {
          forall x ensures multiset(r)[x] == if p(x) then multiset(t)[x] else 0 {
            if p(x) {
              assert x != h;
            }
          }
          FilterUnique(p, t, r);
        }
      }
    }
  }

  /** In a duplicate-free list every element occurs exactly once. */
  lemma {:induction false} DistinctOccursOnce<T>(xs: seq<T>, x: T)
    requires Distinct(xs) && x in xs
    ensures multiset(xs)[x] == 1
  {
    assert xs == [xs[0]] + xs[1..];
    assert Distinct(xs[1..]);
    if xs[0] == x {
      assert forall k :: 0 <= k < |xs| - 1 ==> xs[1..][k] == xs[k + 1];
      assert x !in xs[1..];
    } else {
      DistinctOccursOnce(xs[1..], x);
    }
  }

  /** The halves of a duplicate-free list are duplicate-free and disjoint. */
  lemma DistinctSplit<T>(xs: seq<T>, ys: seq<T>)
    requires Distinct(xs + ys)
    ensures Distinct(xs) && Distinct(ys)
    ensures forall x :: x in xs ==> x !in ys
  {
    var zs := xs + ys;
    forall i, j | 0 <= i < j < |xs| ensures xs[i] != xs[j] {
      assert xs[i] == zs[i] && xs[j] == zs[j];
    }
    forall i, j | 0 <= i < j < |ys| ensures ys[i] != ys[j] {
      assert ys[i] == zs[|xs| + i] && ys[j] == zs[|xs| + j];
    }
    forall x | x in xs ensures x !in ys {
      var i :| 0 <= i < |xs| && xs[i] == x;
      forall j | 0 <= j < |ys| ensures ys[j] != x {
        assert zs[i] == x && zs[|xs| + j] == ys[j];
      }
    }
  }
}
