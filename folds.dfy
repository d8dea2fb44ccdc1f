/**
  The reductions the dashboard is built from: `reduce((sum, x) => sum +
  x.amount, 0)`, `filter`, and grouping into buckets keyed by a month or a
  category, with the facts that tie the per-bucket sums to the overall sum.
 */
module Folds {

  /** Left-to-right sum of `f` over `s`, starting from 0, as a `reduce` does. */
  function Sum<T>(s: seq<T>, f: T -> real): real {
    if s == [] then 0.0 else Sum(s[..|s| - 1], f) + f(s[|s| - 1])
  }

  /** A prefix one element longer is the prefix with that element added. */
  lemma PrefixSnoc<T>(s: seq<T>, j: int)
    requires 0 <= j < |s|
    ensures s[..j + 1] == s[..j] + [s[j]]
  {
  }

  lemma {:induction false} SumAppend<T>(a: seq<T>, b: seq<T>, f: T -> real)
    ensures Sum(a + b, f) == Sum(a, f) + Sum(b, f)
  {
    if b == [] {
      assert a + b == a;
    } else {
      assert (a + b)[..|a + b| - 1] == a + b[..|b| - 1];
      SumAppend(a, b[..|b| - 1], f);
    }
  }

  lemma SumCons<T>(x: T, s: seq<T>, f: T -> real)
    ensures Sum([x] + s, f) == f(x) + Sum(s, f)
  {
    SumAppend([x], s, f);
    assert [x][..0] == [];
  }

  /** `s.filter(p)`: the elements of `s` that satisfy `p`, in order. */
  function Filter<T>(s: seq<T>, p: T -> bool): (r: seq<T>)
    ensures |r| <= |s|
    ensures forall i :: 0 <= i < |r| ==> r[i] in s && p(r[i])
    ensures forall i :: 0 <= i < |s| && p(s[i]) ==> s[i] in r
  {
    if s == [] then []
    else if p(s[|s| - 1]) then Filter(s[..|s| - 1], p) + [s[|s| - 1]]
    else Filter(s[..|s| - 1], p)
  }

  /** Splitting a sequence by a predicate and its negation splits its sum. */
  lemma {:induction false} FilterPartition<T>(s: seq<T>, f: T -> real, p: T -> bool, q: T -> bool)
    requires forall x :: q(x) == !p(x)
    ensures Sum(Filter(s, p), f) + Sum(Filter(s, q), f) == Sum(s, f)
  {
    if s != [] {
      var init, last := s[..|s| - 1], s[|s| - 1];
      FilterPartition(init, f, p, q);
      if p(last) {
        assert Filter(s, p) == Filter(init, p) + [last];
        assert Filter(s, q) == Filter(init, q);
      } else {
        assert Filter(s, q) == Filter(init, q) + [last];
        assert Filter(s, p) == Filter(init, p);
      }
    }
  }

  predicate Distinct<K(==)>(ks: seq<K>) {
    forall i, j :: 0 <= i < j < |ks| ==> ks[i] != ks[j]
  }

  /** Sum of `f` over the elements of `s` whose key is `k`: the bucket of `k`. */
  function SumWhere<T, K(==)>(s: seq<T>, key: T -> K, f: T -> real, k: K): real {
    if s == [] then 0.0
    else SumWhere(s[..|s| - 1], key, f, k) + (if key(s[|s| - 1]) == k then f(s[|s| - 1]) else 0.0)
  }

  /** A key that no element of `s` carries has an empty bucket. */
  lemma {:induction false} SumWhereAbsent<T, K>(s: seq<T>, key: T -> K, f: T -> real, k: K)
    requires forall x :: x in s ==> key(x) != k
    ensures SumWhere(s, key, f, k) == 0.0
  {
    if s != [] {
      SumWhereAbsent(s[..|s| - 1], key, f, k);
    }
  }

  /** The keys of `s` in order of first appearance, as the keys of a
      JavaScript object filled by a loop over `s` are enumerated. */
  function KeysInOrder<T, K(==)>(s: seq<T>, key: T -> K): seq<K> {
    if s == [] then []
    else
      var r := KeysInOrder(s[..|s| - 1], key);
      var last := s[|s| - 1];
      if key(last) in r then r else r + [key(last)]
  }

  /** The listed keys are exactly the keys of the elements. */
  lemma {:induction false} KeysInOrderMembers<T, K>(s: seq<T>, key: T -> K, k: K)
    ensures k in KeysInOrder(s, key) <==> exists i :: 0 <= i < |s| && key(s[i]) == k
  {
    if s != [] {
      var init := s[..|s| - 1];
      KeysInOrderMembers(init, key, k);
      if exists i :: 0 <= i < |s| && key(s[i]) == k {
        var i :| 0 <= i < |s| && key(s[i]) == k;
        if i < |init| {
          assert key(init[i]) == k;
        }
      }
      if exists i :: 0 <= i < |init| && key(init[i]) == k {
        var i :| 0 <= i < |init| && key(init[i]) == k;
        assert key(s[i]) == k;
      }
    }
  }

  /** No key is listed twice. */
  lemma {:induction false} KeysInOrderDistinct<T, K>(s: seq<T>, key: T -> K)
    ensures Distinct(KeysInOrder(s, key))
  {
    if s != [] {
      KeysInOrderDistinct(s[..|s| - 1], key);
    }
  }

  /** The sum, over the keys `ks`, of the buckets of `s`. */
  function SumGroups<T, K(==)>(ks: seq<K>, s: seq<T>, key: T -> K, f: T -> real): real {
    if ks == [] then 0.0
    else SumGroups(ks[..|ks| - 1], s, key, f) + SumWhere(s, key, f, ks[|ks| - 1])
  }

  /** One more element adds its amount to the one bucket of its key, if that
      key is listed. */
  lemma {:induction false} SumGroupsSnoc<T, K>(ks: seq<K>, s: seq<T>, x: T, key: T -> K, f: T -> real)
    requires Distinct(ks)
    ensures SumGroups(ks, s + [x], key, f) == SumGroups(ks, s, key, f) + (if key(x) in ks then f(x) else 0.0)
  {
    if ks != [] {
      var init := ks[..|ks| - 1];
      assert (s + [x])[..|s + [x]| - 1] == s;
      SumGroupsSnoc(init, s, x, key, f);
      assert key(x) in ks <==> key(x) in init || key(x) == ks[|ks| - 1];
      assert key(x) in init ==> key(x) != ks[|ks| - 1];
    }
  }

  /** Every element lands in exactly one bucket: when the distinct keys `ks`
      cover every key of `s`, the buckets add up to the whole sum. */
  lemma {:induction false} SumGroupsCover<T, K>(ks: seq<K>, s: seq<T>, key: T -> K, f: T -> real)
    requires Distinct(ks)
    requires forall x :: x in s ==> key(x) in ks
    ensures SumGroups(ks, s, key, f) == Sum(s, f)
  {
    if s == [] {
      SumGroupsEmpty(ks, key, f);
    } else {
      var init, last := s[..|s| - 1], s[|s| - 1];
      assert s == init + [last];
      SumGroupsCover(ks, init, key, f);
      SumGroupsSnoc(ks, init, last, key, f);
    }
  }

  lemma {:induction false} SumGroupsEmpty<T, K>(ks: seq<K>, key: T -> K, f: T -> real)
    ensures SumGroups(ks, [], key, f) == 0.0
  {
    if ks != [] {
      SumGroupsEmpty(ks[..|ks| - 1], key, f);
    }
  }

  /** A distinct sequence holds each value at most once. */
  lemma {:induction false} DistinctCount<T>(s: seq<T>, x: T)
    requires Distinct(s)
    ensures multiset(s)[x] <= 1
  {
    if s != [] {
      var init := s[..|s| - 1];
      assert s == init + [s[|s| - 1]];
      DistinctCount(init, x);
      if x == s[|s| - 1] {
        assert x !in init;
      }
    }
  }

  /** A value found at only one position occurs at most once. */
  lemma {:induction false} UniqueCount<T>(s: seq<T>, x: T)
    requires forall i, j :: 0 <= i < |s| && 0 <= j < |s| && s[i] == x && s[j] == x ==> i == j
    ensures multiset(s)[x] <= 1
  {
    if s != [] {
      var init := s[..|s| - 1];
      assert s == init + [s[|s| - 1]];
      forall i, j | 0 <= i < |init| && 0 <= j < |init| && init[i] == x && init[j] == x ensures i == j {
        assert s[i] == init[i] && s[j] == init[j];
      }
      UniqueCount(init, x);
      if x == s[|s| - 1] {
        forall i | 0 <= i < |init| ensures init[i] != x {
          assert s[i] == init[i];
        }
      }
    }
  }

  /** In a rearrangement of a sequence that holds `r[k1]` at most once, two
      positions holding that value are the same position. */
  lemma OnceInPermutation<T>(r: seq<T>, u: seq<T>, k1: int, k2: int)
    requires multiset(r) == multiset(u)
    requires 0 <= k1 < |r| && 0 <= k2 < |r| && r[k1] == r[k2]
    requires multiset(u)[r[k1]] <= 1
    ensures k1 == k2
  {
    if k1 < k2 {
      RepeatCounts(r, k1, k2);
    } else if k2 < k1 {
      RepeatCounts(r, k2, k1);
    }
  }

  lemma RepeatCounts<T>(t: seq<T>, i: int, j: int)
    requires 0 <= i < j < |t|
    ensures t[i] == t[j] ==> multiset(t)[t[i]] >= 2
  {
    assert t == t[..j] + t[j..];
    assert t[i] == t[..j][i];
    assert t[j] == t[j..][0];
  }

  /** A rearrangement of a distinct sequence is distinct. */
  lemma DistinctPermutation<T>(s: seq<T>, t: seq<T>)
    requires Distinct(s) && multiset(t) == multiset(s)
    ensures Distinct(t)
  {
    forall i, j | 0 <= i < j < |t| ensures t[i] != t[j] {
      DistinctCount(s, t[i]);
      RepeatCounts(t, i, j);
    }
  }

  /** A key that does not occur among the keys of `s` has an empty bucket. */
  lemma AbsentKey<T, K>(s: seq<T>, key: T -> K, f: T -> real, k: K)
    requires k !in KeysInOrder(s, key)
    ensures SumWhere(s, key, f, k) == 0.0
  {
    KeysInOrderMembers(s, key, k);
    forall x | x in s ensures key(x) != k {
      var i :| 0 <= i < |s| && s[i] == x;
    }
    SumWhereAbsent(s, key, f, k);
  }

  lemma {:induction false} SumWhereAppend<T, K>(a: seq<T>, b: seq<T>, key: T -> K, f: T -> real, k: K)
    ensures SumWhere(a + b, key, f, k) == SumWhere(a, key, f, k) + SumWhere(b, key, f, k)
  {
    if b == [] {
      assert a + b == a;
    } else {
      assert (a + b)[..|a + b| - 1] == a + b[..|b| - 1];
      SumWhereAppend(a, b[..|b| - 1], key, f, k);
    }
  }

  /** A key that does not occur among the keys of `a + b` has an empty bucket
      in `a` and in `b`. */
  lemma AbsentKeyBoth<T, K>(a: seq<T>, b: seq<T>, key: T -> K, f: T -> real, k: K)
    requires k !in KeysInOrder(a + b, key)
    ensures SumWhere(a, key, f, k) == 0.0 && SumWhere(b, key, f, k) == 0.0
  {
    KeysInOrderMembers(a + b, key, k);
    forall x | x in a ensures key(x) != k {
      var i :| 0 <= i < |a| && a[i] == x;
      assert (a + b)[i] == x;
    }
    forall x | x in b ensures key(x) != k {
      var i :| 0 <= i < |b| && b[i] == x;
      assert (a + b)[|a| + i] == x;
    }
    SumWhereAbsent(a, key, f, k);
    SumWhereAbsent(b, key, f, k);
  }
}
