/**
  `Array.prototype.sort` with a comparator that subtracts the keys, `b`'s minus `a`'s: a
  stable sort into non-increasing order of a numeric key. The dashboard sorts
  its recent transactions newest first with it and the expense breakdown
  sorts its slices largest first with it.
 */
module Sorting {
  import opened Folds

  predicate SortedDesc<T>(s: seq<T>, key: T -> real) {
    forall i, j :: 0 <= i < j < |s| ==> key(s[i]) >= key(s[j])
  }

  /** The elements of `s` whose key is `v`, in their order in `s`. A sort is
      stable when it leaves every such subsequence as it was. */
  function WithKey<T>(s: seq<T>, key: T -> real, v: real): seq<T> {
    if s == [] then []
    else if key(s[0]) == v then [s[0]] + WithKey(s[1..], key, v)
    else WithKey(s[1..], key, v)
  }

  /** Inserts `x` in front of the first element whose key is not larger. */
  function Insert<T(==)>(x: T, s: seq<T>, key: T -> real): (r: seq<T>)
    ensures |r| == |s| + 1
    ensures multiset(r) == multiset(s) + multiset{x}
  {
    if s == [] then [x]
    else if key(s[0]) > key(x) then
      assert s == [s[0]] + s[1..];
      [s[0]] + Insert(x, s[1..], key)
    else
      [x] + s
  }

  lemma {:induction false} InsertSorted<T>(x: T, s: seq<T>, key: T -> real)
    requires SortedDesc(s, key)
    ensures SortedDesc(Insert(x, s, key), key)
  {
    if s != [] && key(s[0]) > key(x) {
      var rest := Insert(x, s[1..], key);
      InsertSorted(x, s[1..], key);
      assert rest[0] == x || rest[0] == s[1];
      forall j | 0 <= j < |rest| ensures key(s[0]) >= key(rest[j]) {
        assert key(rest[0]) >= key(rest[j]);
      }
    }
  }

  lemma WithKeyCons<T>(y: T, t: seq<T>, key: T -> real, v: real)
    ensures WithKey([y] + t, key, v) == if key(y) == v then [y] + WithKey(t, key, v) else WithKey(t, key, v)
  {
    assert ([y] + t)[1..] == t;
  }

  /** `x` goes in front of every element with the same key. */
  lemma {:induction false} InsertWithKey<T>(x: T, s: seq<T>, key: T -> real, v: real)
    ensures WithKey(Insert(x, s, key), key, v) == if key(x) == v then [x] + WithKey(s, key, v) else WithKey(s, key, v)
  {
    if s != [] && key(s[0]) > key(x) {
      var rest := Insert(x, s[1..], key);
      assert Insert(x, s, key) == [s[0]] + rest;
      InsertWithKey(x, s[1..], key, v);
      WithKeyCons(s[0], rest, key, v);
      WithKeyCons(s[0], s[1..], key, v);
      assert [s[0]] + s[1..] == s;
    } else {
      assert Insert(x, s, key) == [x] + s;
      WithKeyCons(x, s, key, v);
    }
  }

  /** Stable insertion sort into non-increasing order of `key`. */
  function SortDesc<T(==)>(s: seq<T>, key: T -> real): (r: seq<T>)
    ensures |r| == |s|
    ensures multiset(r) == multiset(s)
    ensures SortedDesc(r, key)
  {
    if s == [] then []
    else
      assert s == [s[0]] + s[1..];
      var rest := SortDesc(s[1..], key);
      InsertSorted(s[0], rest, key);
      Insert(s[0], rest, key)
  }

  /** The sort is stable: the elements with any one key keep their order. */
  lemma {:induction false} SortDescStable<T>(s: seq<T>, key: T -> real, v: real)
    ensures WithKey(SortDesc(s, key), key, v) == WithKey(s, key, v)
  {
    if s != [] {
      SortDescStable(s[1..], key, v);
      InsertWithKey(s[0], SortDesc(s[1..], key), key, v);
    }
  }

  lemma {:induction false} InsertSum<T>(x: T, s: seq<T>, key: T -> real, f: T -> real)
    ensures Sum(Insert(x, s, key), f) == f(x) + Sum(s, f)
  {
    if s == [] {
      SumCons(x, [], f);
    } else if key(s[0]) > key(x) {
      assert s == [s[0]] + s[1..];
      InsertSum(x, s[1..], key, f);
      SumCons(s[0], Insert(x, s[1..], key), f);
      SumCons(s[0], s[1..], f);
    } else {
      SumCons(x, s, f);
    }
  }

  /** Sorting does not change a sum. */
  lemma {:induction false} SortDescSum<T>(s: seq<T>, key: T -> real, f: T -> real)
    ensures Sum(SortDesc(s, key), f) == Sum(s, f)
  {
    if s != [] {
      assert s == [s[0]] + s[1..];
      SortDescSum(s[1..], key, f);
      InsertSum(s[0], SortDesc(s[1..], key), key, f);
      SumCons(s[0], s[1..], f);
    }
  }

  /** The first `n` elements, or all when there are fewer (`slice(0, n)`). */
  function Take<T>(s: seq<T>, n: nat): (r: seq<T>)
    ensures |r| == if |s| < n then |s| else n
    ensures forall i :: 0 <= i < |r| ==> r[i] == s[i]
  {
    if |s| <= n then s else s[..n]
  }

  /** An element that occurs more often in `s` than among its first `n`
      elements occurs after them. */
  lemma LeftOut<T>(s: seq<T>, n: nat, x: T) returns (q: int)
    requires multiset(Take(s, n))[x] < multiset(s)[x]
    ensures |Take(s, n)| <= q < |s| && s[q] == x
  {
    var t := Take(s, n);
    var rest := s[|t|..];
    assert s == t + rest;
    assert multiset(s) == multiset(t) + multiset(rest);
    assert x in multiset(rest);
    var p :| 0 <= p < |rest| && rest[p] == x;
    q := |t| + p;
  }

  /** The kept elements are elements of the sorted sequence, and so of the
      sequence sorted. */
  lemma SortedTakeLastMember<T>(s: seq<T>, key: T -> real, n: nat, i: int)
    requires 0 <= i < |TakeLast(SortDesc(s, key), n)|
    ensures TakeLast(SortDesc(s, key), n)[i] in s
  {
    var sorted := SortDesc(s, key);
    TakeLastAt(sorted, n, i);
    var x := sorted[|sorted| - |TakeLast(sorted, n)| + i];
    assert x in multiset(sorted);
  }

  /** Two of the kept elements are in non-increasing order of their keys,
      and differ when the sequence sorted has no repetitions. */
  lemma SortedTakeLastPair<T>(s: seq<T>, key: T -> real, n: nat, i: int, j: int)
    requires 0 <= i < j < |TakeLast(SortDesc(s, key), n)|
    requires Distinct(s)
    ensures var t := TakeLast(SortDesc(s, key), n); key(t[i]) >= key(t[j]) && t[i] != t[j]
  {
    var sorted := SortDesc(s, key);
    TakeLastAt(sorted, n, i);
    TakeLastAt(sorted, n, j);
    DistinctPermutation(s, sorted);
  }

  /** The last `n` elements, or all when there are fewer (`slice(-n)`). */
  function TakeLast<T>(s: seq<T>, n: nat): (r: seq<T>)
    ensures |r| == if |s| < n then |s| else n
  {
    if |s| <= n then s else s[|s| - n..]
  }

  /** The `i`-th of the last elements is the `i`-th after those left out. */
  lemma TakeLastAt<T>(s: seq<T>, n: nat, i: int)
    requires 0 <= i < |TakeLast(s, n)|
    ensures TakeLast(s, n)[i] == s[|s| - |TakeLast(s, n)| + i]
  {
  }

  /** Keeping the last elements of a sequence without repetitions keeps it
      without repetitions. */
  lemma TakeLastDistinct<T>(s: seq<T>, n: nat)
    requires Distinct(s)
    ensures Distinct(TakeLast(s, n))
  {
    var r := TakeLast(s, n);
    forall i, j | 0 <= i < j < |r| ensures r[i] != r[j] {
      TakeLastAt(s, n, i);
      TakeLastAt(s, n, j);
    }
  }
}
