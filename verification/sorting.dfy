/**
 * `Array.prototype.sort((a, b) => key(b) - key(a))`: a stable sort into
 * descending key order, written as an insertion sort. Used for the premium
 * page (by start date) and for the room categories (by count), and, as
 * `orderBy(field, 'desc').limit(n)`, for the newest-first queries.
 */
module Sorting {
  import opened Common

  predicate SortedDesc<T>(s: seq<T>, key: T -> int) {
    forall i, j :: 0 <= i < j < |s| ==> key(s[i]) >= key(s[j])
  }

  /** Places `x` before the first element whose key is not larger than its own. */
  function InsertDesc<T>(x: T, s: seq<T>, key: T -> int): seq<T> {
    if s == [] || key(x) >= key(s[0]) then [x] + s
    else [s[0]] + InsertDesc(x, s[1..], key)
  }

  lemma {:induction false} InsertPermutes<T>(x: T, s: seq<T>, key: T -> int)
    ensures multiset(InsertDesc(x, s, key)) == multiset([x] + s)
  {
    if s == [] || key(x) >= key(s[0]) {
    } else {
      InsertPermutes(x, s[1..], key);
      assert s == [s[0]] + s[1..];
    }
  }

  /** Inserting keeps every key under a bound that `x` and all of `s` respect. */
  lemma {:induction false} InsertBounded<T>(x: T, s: seq<T>, key: T -> int, b: int)
    requires key(x) <= b && forall i :: 0 <= i < |s| ==> key(s[i]) <= b
    ensures forall k :: 0 <= k < |InsertDesc(x, s, key)| ==> key(InsertDesc(x, s, key)[k]) <= b
  {
    if s == [] || key(x) >= key(s[0]) {
    } else {
      InsertBounded(x, s[1..], key, b);
    }
  }

  lemma {:induction false} InsertSorted<T>(x: T, s: seq<T>, key: T -> int)
    requires SortedDesc(s, key)
    ensures SortedDesc(InsertDesc(x, s, key), key)
  {
    if s == [] || key(x) >= key(s[0]) {
    } else {
      InsertSorted(x, s[1..], key);
      InsertBounded(x, s[1..], key, key(s[0]));
    }
  }

  /** Descending by key, with the same elements. */
  function SortDesc<T>(s: seq<T>, key: T -> int): (r: seq<T>)
    ensures SortedDesc(r, key)
    ensures multiset(r) == multiset(s) && |r| == |s|
  {
    if s == [] then []
    else
      var t := SortDesc(s[1..], key);
      InsertSorted(s[0], t, key);
      InsertPermutes(s[0], t, key);
      assert s == [s[0]] + s[1..];
      assert |multiset(InsertDesc(s[0], t, key))| == |InsertDesc(s[0], t, key)|;
      InsertDesc(s[0], t, key)
  }

  /**
   * The first `n` of a sorted sequence are its largest: every element
   * outside them has a key no larger than any of them.
   */
  lemma TakeIsLargest<T>(r: seq<T>, key: T -> int, n: nat, x: T)
    requires SortedDesc(r, key) && n <= |r|
    requires x in r && x !in r[..n]
    ensures forall i :: 0 <= i < n ==> key(r[i]) >= key(x)
  {
    assert forall m :: 0 <= m < n ==> r[..n][m] == r[m];
    var k :| 0 <= k < |r| && r[k] == x;
    assert k >= n;
  }

  /**
   * The `n` newest documents: those with the ordering field, by descending
   * key, at most `n` of them.
   */
  function Newest<T(!new)>(docs: seq<T>, has: T -> bool, key: T -> int, n: nat): (r: seq<T>)
    ensures |r| == Min(n, |Keep(docs, has)|)
    ensures SortedDesc(r, key)
    ensures forall x :: x in r ==> x in docs && has(x)
  {
    var kept := Keep(docs, has);
    var sorted := SortDesc(kept, key);
    TakeSortedFrom(sorted, kept, key, Min(n, |sorted|));
    sorted[..Min(n, |sorted|)]
  }

  /** A prefix of a sorted permutation of `t` is sorted and holds only elements of `t`. */
  lemma TakeSortedFrom<T>(s: seq<T>, t: seq<T>, key: T -> int, m: nat)
    requires SortedDesc(s, key) && multiset(s) == multiset(t) && m <= |s|
    ensures SortedDesc(s[..m], key)
    ensures forall x :: x in s[..m] ==> x in t
  {
    forall x | x in s[..m] ensures x in t {
      var i :| 0 <= i < m && s[..m][i] == x;
      assert s[i] == x;
      assert x in multiset(s);
    }
  }

  /**
   * Nothing newer is left out: any document with the ordering field that
   * did not make the list is no newer than each one that did.
   */
  lemma NewestAreNewest<T(!new)>(docs: seq<T>, has: T -> bool, key: T -> int, n: nat, x: T)
    requires x in docs && has(x) && x !in Newest(docs, has, key, n)
    ensures forall i :: 0 <= i < |Newest(docs, has, key, n)| ==> key(Newest(docs, has, key, n)[i]) >= key(x)
  {
    var sorted := SortDesc(Keep(docs, has), key);
    assert x in multiset(Keep(docs, has));
    assert x in sorted;
    TakeIsLargest(sorted, key, Min(n, |sorted|), x);
  }
}
