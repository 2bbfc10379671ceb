/** Sequence helpers shared by the browser and the backend models: the stable
    sort that `Array.prototype.sort` and Python's `list.sort` both perform,
    described by a numeric sort key (ascending), and the subsequence
    relation used to describe filters. */
module Sequences {

  /** Places `x` in front of the first element whose key is not smaller, so
      `x` precedes every element of `s` with the same key. */
  function Insert<T>(x: T, s: seq<T>, key: T -> real): seq<T>
  {
    if s == [] || key(x) <= key(s[0]) then [x] + s
    else [s[0]] + Insert(x, s[1..], key)
  }

  /** Stable insertion sort, ascending by `key`. */
  function SortBy<T>(s: seq<T>, key: T -> real): seq<T>
  {
    if s == [] then [] else Insert(s[0], SortBy(s[1..], key), key)
  }

  predicate SortedBy<T>(s: seq<T>, key: T -> real)
  {
    forall i, j :: 0 <= i < j < |s| ==> key(s[i]) <= key(s[j])
  }

  /** The elements of `s` whose key is `k`, in their order in `s`. A sort is
      stable exactly when it leaves each of these unchanged. */
  function WithKey<T>(s: seq<T>, key: T -> real, k: real): seq<T>
  {
    if s == [] then [] else (if key(s[0]) == k then [s[0]] else []) + WithKey(s[1..], key, k)
  }

  /** `a` is obtained from `b` by deleting elements. */
  predicate Subsequence<T(==)>(a: seq<T>, b: seq<T>)
    decreases |b|
  {
    if a == [] then true
    else if b == [] then false
    else if a[0] == b[0] then Subsequence(a[1..], b[1..])
    else Subsequence(a, b[1..])
  }

  lemma {:induction false} InsertPermutes<T>(x: T, s: seq<T>, key: T -> real)
    ensures multiset(Insert(x, s, key)) == multiset(s) + multiset{x}
    ensures |Insert(x, s, key)| == |s| + 1
  {
    if s == [] || key(x) <= key(s[0]) {
    } else {
      InsertPermutes(x, s[1..], key);
      assert s == [s[0]] + s[1..];
    }
  }

  lemma {:induction false} InsertSorted<T>(x: T, s: seq<T>, key: T -> real)
    requires SortedBy(s, key)
    ensures SortedBy(Insert(x, s, key), key)
  {
    if s == [] || key(x) <= key(s[0]) {
    } else {
      var t := Insert(x, s[1..], key);
      InsertSorted(x, s[1..], key);
      InsertPermutes(x, s[1..], key);
      forall j | 0 <= j < |t|
        ensures key(s[0]) <= key(t[j])
      {
        assert t[j] in multiset(t);
        assert t[j] == x || t[j] in multiset(s[1..]);
        if t[j] != x {
          var m :| 0 <= m < |s[1..]| && s[1..][m] == t[j];
          assert s[m + 1] == t[j];
        }
      }
    }
  }

  lemma WithKeyCons<T>(y: T, t: seq<T>, key: T -> real, k: real)
    ensures WithKey([y] + t, key, k) == (if key(y) == k then [y] else []) + WithKey(t, key, k)
  {
    assert ([y] + t)[0] == y;
    assert ([y] + t)[1..] == t;
  }

  lemma {:induction false} InsertWithKey<T>(x: T, s: seq<T>, key: T -> real, k: real)
    ensures WithKey(Insert(x, s, key), key, k)
         == (if key(x) == k then [x] else []) + WithKey(s, key, k)
  {
    if s == [] || key(x) <= key(s[0]) {
      WithKeyCons(x, s, key, k);
    } else {
      var t := Insert(x, s[1..], key);
      InsertWithKey(x, s[1..], key, k);
      WithKeyCons(s[0], t, key, k);
      WithKeyCons(s[0], s[1..], key, k);
      assert [s[0]] + s[1..] == s;
      assert !(key(x) == k && key(s[0]) == k);
    }
  }

  /** The sort returns a permutation of its input ... */
  lemma {:induction false} SortByPermutes<T>(s: seq<T>, key: T -> real)
    ensures multiset(SortBy(s, key)) == multiset(s)
    ensures |SortBy(s, key)| == |s|
  {
    if s != [] {
      SortByPermutes(s[1..], key);
      InsertPermutes(s[0], SortBy(s[1..], key), key);
      assert s == [s[0]] + s[1..];
    }
  }

  /** ... in ascending key order ... */
  lemma {:induction false} SortBySorted<T>(s: seq<T>, key: T -> real)
    ensures SortedBy(SortBy(s, key), key)
  {
    if s != [] {
      SortBySorted(s[1..], key);
      InsertSorted(s[0], SortBy(s[1..], key), key);
    }
  }

  /** ... and keeps elements with equal keys in their original order. */
  lemma {:induction false} SortByStable<T>(s: seq<T>, key: T -> real, k: real)
    ensures WithKey(SortBy(s, key), key, k) == WithKey(s, key, k)
  {
    if s != [] {
      SortByStable(s[1..], key, k);
      InsertWithKey(s[0], SortBy(s[1..], key), key, k);
    }
  }

  /** The three facts together: a permutation, in ascending key order, that
      keeps every group of equal keys in input order. */
  lemma SortByCorrect<T>(s: seq<T>, key: T -> real)
    ensures multiset(SortBy(s, key)) == multiset(s) && |SortBy(s, key)| == |s|
    ensures SortedBy(SortBy(s, key), key)
    ensures forall k :: WithKey(SortBy(s, key), key, k) == WithKey(s, key, k)
  {
    SortByPermutes(s, key);
    SortBySorted(s, key);
    forall k ensures WithKey(SortBy(s, key), key, k) == WithKey(s, key, k) {
      SortByStable(s, key, k);
    }
  }

  /** A sequence whose keys are all equal is left in input order. */
  lemma {:induction false} SortByConstantKey<T>(s: seq<T>, key: T -> real, k: real)
    requires forall i :: 0 <= i < |s| ==> key(s[i]) == k
    ensures SortBy(s, key) == s
  {
    if s != [] {
      SortByConstantKey(s[1..], key, k);
      var t := SortBy(s[1..], key);
      if t != [] {
        assert t[0] == s[1..][0];
      }
    }
  }

  /** A symmetric relation that holds between every two positions of `s`. */
  predicate Pairwise<T>(s: seq<T>, related: (T, T) -> bool)
  {
    forall i, j :: 0 <= i < j < |s| ==> related(s[i], s[j])
  }

  lemma {:induction false} InsertPairwise<T>(x: T, s: seq<T>, key: T -> real, related: (T, T) -> bool)
    requires forall a, b :: related(a, b) == related(b, a)
    requires Pairwise(s, related)
    requires forall i :: 0 <= i < |s| ==> related(x, s[i])
    ensures Pairwise(Insert(x, s, key), related)
  {
    if s == [] || key(x) <= key(s[0]) {
      var r := [x] + s;
      forall i, j | 0 <= i < j < |r| ensures related(r[i], r[j]) {
        if i > 0 {
          assert r[i] == s[i - 1] && r[j] == s[j - 1];
        }
      }
    } else {
      var t := Insert(x, s[1..], key);
      InsertPairwise(x, s[1..], key, related);
      InsertPermutes(x, s[1..], key);
      var r := [s[0]] + t;
      forall i, j | 0 <= i < j < |r| ensures related(r[i], r[j]) {
        if i == 0 {
          var y := t[j - 1];
          assert y in multiset(t);
          if y != x {
            assert y in multiset(s[1..]);
            var m :| 0 <= m < |s[1..]| && s[1..][m] == y;
            assert s[m + 1] == y;
          } else {
            assert related(s[0], x);
          }
        } else {
          assert r[i] == t[i - 1] && r[j] == t[j - 1];
        }
      }
    }
  }

  /** Sorting keeps a symmetric pairwise property, such as a minimum
      separation between prices. */
  lemma {:induction false} SortByPairwise<T>(s: seq<T>, key: T -> real, related: (T, T) -> bool)
    requires forall a, b :: related(a, b) == related(b, a)
    requires Pairwise(s, related)
    ensures Pairwise(SortBy(s, key), related)
  {
    if s != [] {
      assert Pairwise(s[1..], related) by {
        forall i, j | 0 <= i < j < |s[1..]| ensures related(s[1..][i], s[1..][j]) {
          assert s[1..][i] == s[i + 1] && s[1..][j] == s[j + 1];
        }
      }
      SortByPairwise(s[1..], key, related);
      var t := SortBy(s[1..], key);
      SortByPermutes(s[1..], key);
      forall i | 0 <= i < |t| ensures related(s[0], t[i]) {
        assert t[i] in multiset(s[1..]);
        var m :| 0 <= m < |s[1..]| && s[1..][m] == t[i];
        assert s[m + 1] == t[i];
      }
      InsertPairwise(s[0], t, key, related);
    }
  }

  lemma {:induction false} SubsequenceMembers<T>(a: seq<T>, b: seq<T>)
    requires Subsequence(a, b)
    ensures forall x :: x in a ==> x in b
    decreases |b|
  {
    if a != [] && b != [] {
      if a[0] == b[0] {
        SubsequenceMembers(a[1..], b[1..]);
        forall x | x in a ensures x in b {
          if x != a[0] { assert x in a[1..]; }
        }
      } else {
        SubsequenceMembers(a, b[1..]);
      }
    }
  }

  /** Appending the same element to both sides keeps the relation. */
  lemma {:induction false} SubsequenceSnoc<T>(a: seq<T>, b: seq<T>, x: T)
    requires Subsequence(a, b)
    ensures Subsequence(a + [x], b + [x])
    decreases |b|
  {
    if a == [] {
      assert a + [x] == [x];
      SubsequenceOfEmpty(b, x);
    } else if a[0] == b[0] {
      SubsequenceSnoc(a[1..], b[1..], x);
      assert (a + [x])[1..] == a[1..] + [x];
      assert (b + [x])[1..] == b[1..] + [x];
    } else {
      SubsequenceSnoc(a, b[1..], x);
      assert (b + [x])[1..] == b[1..] + [x];
    }
  }

  lemma {:induction false} SubsequenceOfEmpty<T>(b: seq<T>, x: T)
    ensures Subsequence([x], b + [x])
    decreases |b|
  {
    if b != [] {
      if b[0] == x {
        assert Subsequence([x][1..], (b + [x])[1..]);
      } else {
        SubsequenceOfEmpty(b[1..], x);
        assert (b + [x])[1..] == b[1..] + [x];
      }
    }
  }

  /** Appending to the longer side only keeps the relation. */
  lemma {:induction false} SubsequenceExtend<T>(a: seq<T>, b: seq<T>, x: T)
    requires Subsequence(a, b)
    ensures Subsequence(a, b + [x])
    decreases |b|
  {
    if a != [] {
      if a[0] == b[0] {
        SubsequenceExtend(a[1..], b[1..], x);
      } else {
        SubsequenceExtend(a, b[1..], x);
      }
      assert (b + [x])[1..] == b[1..] + [x];
    }
  }

  /** The elements of `s` that satisfy `p`, in their order. */
  function Filter<T(==)>(s: seq<T>, p: T -> bool): (r: seq<T>)
    ensures |r| <= |s|
    ensures forall i :: 0 <= i < |r| ==> r[i] in s && p(r[i])
    ensures forall i :: 0 <= i < |s| && p(s[i]) ==> s[i] in r
  {
    if s == [] then [] else (if p(s[0]) then [s[0]] else []) + Filter(s[1..], p)
  }

  lemma {:induction false} FilterSubsequence<T>(s: seq<T>, p: T -> bool)
    ensures Subsequence(Filter(s, p), s)
  {
    if s != [] {
      FilterSubsequence(s[1..], p);
      var f := Filter(s, p);
      if p(s[0]) {
        assert f[1..] == Filter(s[1..], p);
      } else {
        assert f == Filter(s[1..], p);
        if f != [] {
          assert p(f[0]) && f[0] != s[0];
        }
      }
    }
  }

  function RealMin(x: real, y: real): real { if x <= y then x else y }
  function RealMax(x: real, y: real): real { if x >= y then x else y }

  /** The smallest element (numpy's min of a non-empty array). */
  function Min(s: seq<real>): (r: real)
    requires s != []
    ensures exists k :: 0 <= k < |s| && s[k] == r
    ensures forall k :: 0 <= k < |s| ==> r <= s[k]
  {
    if |s| == 1 then s[0]
    else
      var m := Min(s[1..]);
      assert forall k :: 1 <= k < |s| ==> s[k] == s[1..][k - 1];
      RealMin(s[0], m)
  }

  /** The largest element. */
  function Max(s: seq<real>): (r: real)
    requires s != []
    ensures exists k :: 0 <= k < |s| && s[k] == r
    ensures forall k :: 0 <= k < |s| ==> s[k] <= r
  {
    if |s| == 1 then s[0]
    else
      var m := Max(s[1..]);
      assert forall k :: 1 <= k < |s| ==> s[k] == s[1..][k - 1];
      RealMax(s[0], m)
  }

  function Sum(s: seq<real>): real
  {
    if s == [] then 0.0 else s[0] + Sum(s[1..])
  }

  /** A sum of non-negative terms is non-negative and bounds each term. */
  lemma {:induction false} SumBounds(s: seq<real>)
    requires forall k :: 0 <= k < |s| ==> s[k] >= 0.0
    ensures Sum(s) >= 0.0
    ensures forall k :: 0 <= k < |s| ==> s[k] <= Sum(s)
  {
    if s != [] {
      assert forall k :: 1 <= k < |s| ==> s[k] == s[1..][k - 1];
      SumBounds(s[1..]);
    }
  }

  /** The values `build(i)` of the indices lo <= i < hi at which `keep(i)`
      holds, in index order: a loop over a range that appends when a test
      passes. */
  function Scan<T>(lo: nat, hi: nat, keep: nat -> bool, build: nat -> T): seq<T>
    decreases hi
  {
    if hi <= lo then [] else Scan(lo, hi - 1, keep, build) + (if keep(hi - 1) then [build(hi - 1)] else [])
  }

  /** Scanning further never yields fewer values. */
  lemma {:induction false} ScanMonotone<T>(lo: nat, hi: nat, hi2: nat, keep: nat -> bool, build: nat -> T)
    requires hi <= hi2
    ensures |Scan(lo, hi, keep, build)| <= |Scan(lo, hi2, keep, build)|
    decreases hi2
  {
    if hi < hi2 {
      ScanMonotone(lo, hi, hi2 - 1, keep, build);
    }
  }

  /** Everything scanned is built from a kept index of the range ... */
  lemma {:induction false} ScanSound<T>(lo: nat, hi: nat, keep: nat -> bool, build: nat -> T)
    ensures forall k :: 0 <= k < |Scan(lo, hi, keep, build)| ==>
      exists i: nat :: lo <= i < hi && keep(i) && Scan(lo, hi, keep, build)[k] == build(i)
    decreases hi
  {
    if hi > lo {
      ScanSound(lo, hi - 1, keep, build);
      var earlier := Scan(lo, hi - 1, keep, build);
      var r := Scan(lo, hi, keep, build);
      assert r == earlier + (if keep(hi - 1) then [build(hi - 1)] else []);
      forall k | 0 <= k < |r| ensures exists i: nat :: lo <= i < hi && keep(i) && r[k] == build(i) {
        if k < |earlier| {
          var i: nat :| lo <= i < hi - 1 && keep(i) && earlier[k] == build(i);
          assert lo <= i < hi && keep(i) && r[k] == build(i);
        } else {
          assert keep(hi - 1) && r[k] == build(hi - 1);
        }
      }
    } else {
      assert Scan(lo, hi, keep, build) == [];
    }
  }

  /** ... and every kept index of the range contributes its value. */
  lemma {:induction false} ScanComplete<T>(lo: nat, hi: nat, keep: nat -> bool, build: nat -> T)
    ensures forall i: nat :: lo <= i < hi && keep(i) ==> build(i) in Scan(lo, hi, keep, build)
    decreases hi
  {
    if hi > lo {
      ScanComplete(lo, hi - 1, keep, build);
    }
  }

  /** Sorting neither adds nor drops an element. */
  lemma SortByMembers<T>(s: seq<T>, key: T -> real, x: T)
    ensures x in SortBy(s, key) <==> x in s
  {
    SortByPermutes(s, key);
    assert x in SortBy(s, key) <==> x in multiset(SortBy(s, key));
    assert x in s <==> x in multiset(s);
  }

  /** A scan yields at most one value per index of its range. */
  lemma {:induction false} ScanLength<T>(lo: nat, hi: nat, keep: nat -> bool, build: nat -> T)
    ensures |Scan(lo, hi, keep, build)| <= if hi >= lo then hi - lo else 0
    decreases hi
  {
    if hi > lo {
      ScanLength(lo, hi - 1, keep, build);
    }
  }

  /** The keys strictly increase along `s`. */
  predicate StrictlyIncreasingBy<T>(s: seq<T>, key: T -> real)
  {
    forall a, b :: 0 <= a < b < |s| ==> key(s[a]) < key(s[b])
  }

  /** When the built values grow strictly with the index, the scan is
      strictly increasing. */
  lemma {:induction false} ScanIncreasing<T>(lo: nat, hi: nat, keep: nat -> bool, build: nat -> T, key: T -> real)
    requires forall i, j :: lo <= i < j < hi ==> key(build(i)) < key(build(j))
    ensures StrictlyIncreasingBy(Scan(lo, hi, keep, build), key)
    decreases hi
  {
    if hi > lo {
      ScanIncreasing(lo, hi - 1, keep, build, key);
      ScanSound(lo, hi - 1, keep, build);
      var earlier := Scan(lo, hi - 1, keep, build);
      var s := Scan(lo, hi, keep, build);
      assert s == earlier + (if keep(hi - 1) then [build(hi - 1)] else []);
      forall a, b | 0 <= a < b < |s| ensures key(s[a]) < key(s[b]) {
        if b < |earlier| {
          assert s[a] == earlier[a] && s[b] == earlier[b];
        } else {
          assert keep(hi - 1) && b == |earlier|;
          var i: nat :| lo <= i < hi - 1 && keep(i) && earlier[a] == build(i);
          assert s[a] == build(i) && s[b] == build(hi - 1);
          assert key(build(i)) < key(build(hi - 1));
        }
      }
    } else {
      assert Scan(lo, hi, keep, build) == [];
    }
  }

  /** A scan whose test and value do not depend on the index yields
      nothing, or that one value at every index. */
  lemma {:induction false} ScanUniform<T>(lo: nat, hi: nat, keep: nat -> bool, build: nat -> T)
    requires lo < hi
    requires forall i :: lo <= i < hi ==> keep(i) == keep(lo) && build(i) == build(lo)
    ensures !keep(lo) ==> Scan(lo, hi, keep, build) == []
    ensures keep(lo) ==> var s := Scan(lo, hi, keep, build);
      |s| == hi - lo && forall m :: 0 <= m < |s| ==> s[m] == build(lo)
    decreases hi
  {
    var earlier := Scan(lo, hi - 1, keep, build);
    assert Scan(lo, hi, keep, build) == earlier + (if keep(hi - 1) then [build(hi - 1)] else []);
    if hi - 1 > lo {
      ScanUniform(lo, hi - 1, keep, build);
    } else {
      assert earlier == [];
    }
  }
}
