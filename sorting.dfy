/** Python's `sorted(xs, key=...)` / `xs.sort(key=...)`: a stable sort.  The
    order is given as `before(a, b)`, "a key `a` is placed strictly before a key
    `b`" (`<` for ascending, `>` for `reverse=True`). */
module Sorting {

  ghost predicate StrictTotalOrder<K(!new)>(before: (K, K) -> bool)
  {
    && (forall a :: !before(a, a))
    && (forall a, b, c :: before(a, b) && before(b, c) ==> before(a, c))
    && (forall a, b :: a != b ==> before(a, b) || before(b, a))
  }

  /** `reverse=True` on numbers: a larger key first. */
  function Greater(a: int, b: int): bool { a > b }

  lemma GreaterIsStrictTotalOrder()
    ensures StrictTotalOrder(Greater)
  {
  }

  /** No element is placed strictly before an element that precedes it. */
  ghost predicate SortedBy<T, K>(s: seq<T>, key: T -> K, before: (K, K) -> bool)
  {
    forall i, j :: 0 <= i < j < |s| ==> !before(key(s[j]), key(s[i]))
  }

  /** The elements of `s` whose key is `v`, in their order in `s`. */
  function KeyClass<T, K(==)>(s: seq<T>, key: T -> K, v: K): (r: seq<T>)
    ensures |r| <= |s|
  {
    if s == [] then [] else (if key(s[0]) == v then [s[0]] else []) + KeyClass(s[1..], key, v)
  }

  /** Inserts `x` into a sorted `s` after every element it is not placed before
      (so after the elements with an equal key). */
  function Insert<T, K>(s: seq<T>, x: T, key: T -> K, before: (K, K) -> bool): (r: seq<T>)
    ensures |r| == |s| + 1
  {
    if s == [] then [x]
    else if before(key(x), key(s[0])) then [x] + s
    else [s[0]] + Insert(s[1..], x, key, before)
  }

  /** Insertion sort taking the elements in their original order. */
  function SortBy<T, K>(s: seq<T>, key: T -> K, before: (K, K) -> bool): (r: seq<T>)
    ensures |r| == |s|
  {
    if s == [] then [] else Insert(SortBy(s[..|s| - 1], key, before), s[|s| - 1], key, before)
  }

  lemma {:induction false} InsertMultiset<T, K>(s: seq<T>, x: T, key: T -> K, before: (K, K) -> bool)
    ensures multiset(Insert(s, x, key, before)) == multiset(s) + multiset{x}
  {
    if s != [] && !before(key(x), key(s[0])) {
      InsertMultiset(s[1..], x, key, before);
      assert s == [s[0]] + s[1..];
    }
  }

  /** The sort is a permutation of its input. */
  lemma {:induction false} SortByMultiset<T, K>(s: seq<T>, key: T -> K, before: (K, K) -> bool)
    ensures multiset(SortBy(s, key, before)) == multiset(s)
  {
    if s != [] {
      var init := s[..|s| - 1];
      SortByMultiset(init, key, before);
      InsertMultiset(SortBy(init, key, before), s[|s| - 1], key, before);
      assert s == init + [s[|s| - 1]];
    }
  }

  lemma {:induction false} InsertSorted<T, K(!new)>(s: seq<T>, x: T, key: T -> K, before: (K, K) -> bool)
    requires StrictTotalOrder(before)
    requires SortedBy(s, key, before)
    ensures SortedBy(Insert(s, x, key, before), key, before)
  {
    if s == [] {
    } else if before(key(x), key(s[0])) {
      var r := [x] + s;
      forall i, j | 0 <= i < j < |r| ensures !before(key(r[j]), key(r[i])) {
        if i == 0 {
          assert r[j] == s[j - 1];
          assert !before(key(s[j - 1]), key(s[0]));
        } else {
          assert r[i] == s[i - 1] && r[j] == s[j - 1];
        }
      }
    } else {
      var t := Insert(s[1..], x, key, before);
      InsertSorted(s[1..], x, key, before);
      InsertMultiset(s[1..], x, key, before);
      var r := [s[0]] + t;
      assert r == Insert(s, x, key, before);
      forall i, j | 0 <= i < j < |r| ensures !before(key(r[j]), key(r[i])) {
        if i == 0 {
          assert r[j] in multiset(t);
          assert r[j] in multiset(s[1..]) || r[j] == x;
          if r[j] != x {
            var k :| 0 <= k < |s[1..]| && s[1..][k] == r[j];
            assert s[k + 1] == r[j];
          }
        } else {
          assert r[i] == t[i - 1] && r[j] == t[j - 1];
        }
      }
    }
  }

  /** The sort orders its output. */
  lemma {:induction false} SortBySorted<T, K(!new)>(s: seq<T>, key: T -> K, before: (K, K) -> bool)
    requires StrictTotalOrder(before)
    ensures SortedBy(SortBy(s, key, before), key, before)
  {
    if s != [] {
      SortBySorted(s[..|s| - 1], key, before);
      InsertSorted(SortBy(s[..|s| - 1], key, before), s[|s| - 1], key, before);
    }
  }

  lemma {:induction false} KeyClassConcat<T, K>(a: seq<T>, b: seq<T>, key: T -> K, v: K)
    ensures KeyClass(a + b, key, v) == KeyClass(a, key, v) + KeyClass(b, key, v)
  {
    if a == [] {
      assert a + b == b;
    } else {
      var head := if key(a[0]) == v then [a[0]] else [];
      assert (a + b)[0] == a[0];
      assert (a + b)[1..] == a[1..] + b;
      assert KeyClass(a + b, key, v) == head + KeyClass(a[1..] + b, key, v);
      KeyClassConcat(a[1..], b, key, v);
      assert KeyClass(a, key, v) == head + KeyClass(a[1..], key, v);
    }
  }

  lemma SortedTail<T, K>(s: seq<T>, key: T -> K, before: (K, K) -> bool)
    requires s != [] && SortedBy(s, key, before)
    ensures SortedBy(s[1..], key, before)
  {
    forall i, j | 0 <= i < j < |s[1..]| ensures !before(key(s[1..][j]), key(s[1..][i])) {
      assert s[1..][j] == s[j + 1] && s[1..][i] == s[i + 1];
    }
  }

  /** In a sorted sequence whose first key comes strictly after `v`, no key is `v`. */
  lemma {:induction false} KeyClassAfter<T, K(!new)>(s: seq<T>, key: T -> K, before: (K, K) -> bool, v: K)
    requires StrictTotalOrder(before)
    requires SortedBy(s, key, before)
    requires s != [] && before(v, key(s[0]))
    ensures KeyClass(s, key, v) == []
  {
    assert key(s[0]) != v;
    if |s| > 1 {
      assert !before(key(s[1]), key(s[0]));
      assert key(s[1]) == key(s[0]) || before(key(s[0]), key(s[1]));
      assert before(v, key(s[1]));
      SortedTail(s, key, before);
      KeyClassAfter(s[1..], key, before, v);
      assert s[1..][0] == s[1];
    }
    assert KeyClass(s, key, v) == KeyClass(s[1..], key, v);
  }

  lemma {:induction false} InsertKeyClass<T, K(!new)>(s: seq<T>, x: T, key: T -> K, before: (K, K) -> bool, v: K)
    requires StrictTotalOrder(before)
    requires SortedBy(s, key, before)
    ensures KeyClass(Insert(s, x, key, before), key, v)
         == KeyClass(s, key, v) + (if key(x) == v then [x] else [])
  {
    if s == [] {
    } else if before(key(x), key(s[0])) {
      assert Insert(s, x, key, before) == [x] + s;
      KeyClassConcat([x], s, key, v);
      if key(x) == v {
        KeyClassAfter(s, key, before, v);
      }
    } else {
      var t := Insert(s[1..], x, key, before);
      assert Insert(s, x, key, before) == [s[0]] + t;
      SortedTail(s, key, before);
      InsertKeyClass(s[1..], x, key, before, v);
      KeyClassConcat([s[0]], t, key, v);
      KeyClassConcat([s[0]], s[1..], key, v);
      assert [s[0]] + s[1..] == s;
    }
  }

  /** The sort is stable: elements with equal keys keep their relative order. */
  lemma {:induction false} SortByStable<T, K(!new)>(s: seq<T>, key: T -> K, before: (K, K) -> bool, v: K)
    requires StrictTotalOrder(before)
    ensures KeyClass(SortBy(s, key, before), key, v) == KeyClass(s, key, v)
  {
    if s != [] {
      var init := s[..|s| - 1];
      var x := s[|s| - 1];
      SortByStable(init, key, before, v);
      SortBySorted(init, key, before);
      InsertKeyClass(SortBy(init, key, before), x, key, before, v);
      assert s == init + [x];
      KeyClassConcat(init, [x], key, v);
    }
  }

  /** Taking a prefix of a sorted sequence keeps it sorted. */
  lemma PrefixSorted<T, K>(s: seq<T>, n: nat, key: T -> K, before: (K, K) -> bool)
    requires n <= |s|
    requires SortedBy(s, key, before)
    ensures SortedBy(s[..n], key, before)
  {
    assert forall i :: 0 <= i < n ==> s[..n][i] == s[i];
  }
}
