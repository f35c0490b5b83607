/**
 * `Array.prototype.filter` and `Array.prototype.sort(compare)` as the core
 * uses them. ECMAScript requires `sort` to be stable; for a comparator that
 * is consistent (a key difference) the stable sorted order is unique, and
 * `SortBy` computes it by insertion. `compare(a, b) > 0` puts `b` first.
 */
module ArrayMethods {

  function Filter<T(!new)>(s: seq<T>, keep: T -> bool): (r: seq<T>)
    ensures forall x {:trigger multiset(r)[x]} :: multiset(r)[x] == if keep(x) then multiset(s)[x] else 0
    ensures forall i :: 0 <= i < |r| ==> keep(r[i])
    ensures |r| <= |s|
  {
    if s == [] then []
    else
      assert s == [s[0]] + s[1..];
      (if keep(s[0]) then [s[0]] else []) + Filter(s[1..], keep)
  }

  /** Filtering keeps order: it distributes over concatenation. */
  lemma {:induction false} FilterAppend<T(!new)>(a: seq<T>, b: seq<T>, keep: T -> bool)
    ensures Filter(a + b, keep) == Filter(a, keep) + Filter(b, keep)
  {
    if a != [] {
      var head := if keep(a[0]) then [a[0]] else [];
      assert (a + b)[0] == a[0] && (a + b)[1..] == a[1..] + b;
      assert Filter(a + b, keep) == head + Filter(a[1..] + b, keep);
      FilterAppend(a[1..], b, keep);
      assert Filter(a, keep) == head + Filter(a[1..], keep);
    } else {
      assert a + b == b;
    }
  }

  /** Places `x` in front of the first element it need not follow. */
  function Insert<T>(x: T, s: seq<T>, compare: (T, T) -> real): (r: seq<T>)
    ensures multiset(r) == multiset(s) + multiset{x}
    ensures |r| == |s| + 1
  {
    if s == [] || compare(x, s[0]) <= 0.0 then [x] + s
    else
      assert s == [s[0]] + s[1..];
      [s[0]] + Insert(x, s[1..], compare)
  }

  function SortBy<T>(s: seq<T>, compare: (T, T) -> real): (r: seq<T>)
    ensures multiset(r) == multiset(s)
    ensures |r| == |s|
  {
    if s == [] then []
    else
      assert s == [s[0]] + s[1..];
      Insert(s[0], SortBy(s[1..], compare), compare)
  }

  /** `compare(a, b)` is `key(b) - key(a)`: the comparator of a descending sort by `key`. */
  ghost predicate DescendingBy<T(!new)>(compare: (T, T) -> real, key: T -> real) {
    forall a, b :: compare(a, b) == key(b) - key(a)
  }

  predicate NonIncreasing<T>(s: seq<T>, key: T -> real) {
    forall i, j :: 0 <= i < j < |s| ==> key(s[i]) >= key(s[j])
  }

  /** The elements of `s` whose key is `k`, in their order in `s`. */
  function WithKey<T>(s: seq<T>, key: T -> real, k: real): seq<T> {
    if s == [] then []
    else (if key(s[0]) == k then [s[0]] else []) + WithKey(s[1..], key, k)
  }

  lemma {:induction false} InsertDescending<T(!new)>(x: T, s: seq<T>, compare: (T, T) -> real, key: T -> real)
    requires DescendingBy(compare, key)
    requires NonIncreasing(s, key)
    ensures NonIncreasing(Insert(x, s, compare), key)
  {
    if s != [] && compare(x, s[0]) > 0.0 {
      var t := Insert(x, s[1..], compare);
      var r := [s[0]] + t;
      assert Insert(x, s, compare) == r;
      InsertDescending(x, s[1..], compare, key);
      forall j | 0 <= j < |t| ensures key(t[j]) <= key(s[0]) {
        assert t[j] in multiset(t);
        if t[j] != x {
          assert t[j] in multiset(s[1..]);
          var i :| 0 <= i < |s[1..]| && s[1..][i] == t[j];
          assert s[i + 1] == t[j];
        }
      }
      forall i, j | 0 <= i < j < |r| ensures key(r[i]) >= key(r[j]) {
        assert r[j] == t[j - 1];
        if i > 0 { assert r[i] == t[i - 1]; }
      }
    }
  }

  lemma {:induction false} InsertStable<T(!new)>(x: T, s: seq<T>, compare: (T, T) -> real, key: T -> real, k: real)
    requires DescendingBy(compare, key)
    ensures WithKey(Insert(x, s, compare), key, k) == (if key(x) == k then [x] else []) + WithKey(s, key, k)
  {
    if s == [] || compare(x, s[0]) <= 0.0 {
      WithKeyCons(x, s, key, k);
    } else {
      InsertStable(x, s[1..], compare, key, k);
      assert compare(x, s[0]) == key(s[0]) - key(x);
      InsertStableStep(x, s[0], Insert(x, s[1..], compare), s[1..], key, k);
      assert [s[0]] + s[1..] == s;
    }
  }

  /** Passing over an element with a larger key leaves the key-`k` elements in order. */
  lemma InsertStableStep<T>(x: T, y: T, t: seq<T>, s: seq<T>, key: T -> real, k: real)
    requires key(y) > key(x)
    requires WithKey(t, key, k) == (if key(x) == k then [x] else []) + WithKey(s, key, k)
    ensures WithKey([y] + t, key, k) == (if key(x) == k then [x] else []) + WithKey([y] + s, key, k)
  {
    WithKeyCons(y, t, key, k);
    WithKeyCons(y, s, key, k);
  }

  lemma WithKeyCons<T>(y: T, t: seq<T>, key: T -> real, k: real)
    ensures WithKey([y] + t, key, k) == (if key(y) == k then [y] else []) + WithKey(t, key, k)
  {
    assert ([y] + t)[0] == y && ([y] + t)[1..] == t;
  }

  /**
   * Sorting with a descending-key comparator gives non-increasing keys and is
   * stable: the elements sharing any one key keep their input order.
   */
  lemma {:induction false} SortByDescending<T(!new)>(s: seq<T>, compare: (T, T) -> real, key: T -> real)
    requires DescendingBy(compare, key)
    ensures NonIncreasing(SortBy(s, compare), key)
    ensures forall k :: WithKey(SortBy(s, compare), key, k) == WithKey(s, key, k)
  {
    if s != [] {
      SortByDescending(s[1..], compare, key);
      InsertDescending(s[0], SortBy(s[1..], compare), compare, key);
      forall k ensures WithKey(SortBy(s, compare), key, k) == WithKey(s, key, k) {
        InsertStable(s[0], SortBy(s[1..], compare), compare, key, k);
      }
    }
  }
}
