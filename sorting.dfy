/** The two uses of Python's `sorted` in the core: strings in code-point
    order, and a stable sort of records by a numeric key. */
module Sorting {

  // ---------------------------------------------------------------------
  // Strings in code-point order

  /** Python's `a <= b` on strings: lexicographic by code point. */
  predicate StrLe(a: string, b: string)
    decreases |a|
  {
    if a == [] then true
    else if b == [] then false
    else if a[0] != b[0] then a[0] < b[0]
    else StrLe(a[1..], b[1..])
  }

  lemma {:induction false} StrLeTotal(a: string, b: string)
    ensures StrLe(a, b) || StrLe(b, a)
    decreases |a|
  {
    if a != [] && b != [] && a[0] == b[0] {
      StrLeTotal(a[1..], b[1..]);
    }
  }

  lemma {:induction false} StrLeAntisymmetric(a: string, b: string)
    requires StrLe(a, b) && StrLe(b, a)
    ensures a == b
    decreases |a|
  {
    if a != [] && b != [] {
      StrLeAntisymmetric(a[1..], b[1..]);
      assert a == [a[0]] + a[1..] && b == [b[0]] + b[1..];
    }
  }

  lemma {:induction false} StrLeTransitive(a: string, b: string, c: string)
    requires StrLe(a, b) && StrLe(b, c)
    ensures StrLe(a, c)
    decreases |a|
  {
    if a != [] && b != [] && c != [] && a[0] == b[0] && b[0] == c[0] {
      StrLeTransitive(a[1..], b[1..], c[1..]);
    }
  }

  predicate SortedStrings(s: seq<string>) {
    forall i, j :: 0 <= i < j < |s| ==> StrLe(s[i], s[j])
  }

  /** Insertion into a sorted list, before the first larger element. */
  function InsertString(s: seq<string>, x: string): (r: seq<string>)
    ensures multiset(r) == multiset(s) + multiset{x}
    ensures |r| == |s| + 1
  {
    if s == [] then [x]
    else if StrLe(x, s[0]) then [x] + s
    else
      assert s == [s[0]] + s[1..];
      [s[0]] + InsertString(s[1..], x)
  }

  lemma {:induction false} StrLeReflexive(a: string)
    ensures StrLe(a, a)
    decreases |a|
  {
    if a != [] {
      StrLeReflexive(a[1..]);
    }
  }

  lemma SortedStringsTail(s: seq<string>)
    requires SortedStrings(s) && s != []
    ensures SortedStrings(s[1..])
  {
    var tail := s[1..];
    forall i, j | 0 <= i < j < |tail| ensures StrLe(tail[i], tail[j]) {
      assert tail[i] == s[i + 1] && tail[j] == s[j + 1];
    }
  }

  /** A sorted list behind an element no larger than any of its members is sorted. */
  lemma ConsSortedStrings(h: string, t: seq<string>)
    requires SortedStrings(t)
    requires forall y :: y in t ==> StrLe(h, y)
    ensures SortedStrings([h] + t)
  {
    var r := [h] + t;
    forall i, j | 0 <= i < j < |r| ensures StrLe(r[i], r[j]) {
      assert r[j] == t[j - 1];
      if i > 0 {
        assert r[i] == t[i - 1];
      }
    }
  }

  lemma {:induction false} InsertStringSorted(s: seq<string>, x: string)
    requires SortedStrings(s)
    ensures SortedStrings(InsertString(s, x))
  {
    if s == [] {
    } else if StrLe(x, s[0]) {
      forall y | y in s ensures StrLe(x, y) {
        var m :| 0 <= m < |s| && s[m] == y;
        if m > 0 {
          StrLeTransitive(x, s[0], y);
        }
      }
      ConsSortedStrings(x, s);
    } else {
      var tail := s[1..];
      SortedStringsTail(s);
      InsertStringSorted(tail, x);
      StrLeTotal(x, s[0]);
      forall y | y in InsertString(tail, x) ensures StrLe(s[0], y) {
        assert y in multiset(InsertString(tail, x));
        if y != x {
          assert y in multiset(tail);
          var m :| 0 <= m < |tail| && tail[m] == y;
          assert s[m + 1] == y;
        }
      }
      ConsSortedStrings(s[0], InsertString(tail, x));
    }
  }

  /** `sorted(names)`. */
  function SortStrings(s: seq<string>): (r: seq<string>)
    ensures multiset(r) == multiset(s)
    ensures |r| == |s|
  {
    if s == [] then []
    else
      assert s == s[..|s| - 1] + [s[|s| - 1]];
      InsertString(SortStrings(s[..|s| - 1]), s[|s| - 1])
  }

  lemma {:induction false} SortStringsSorted(s: seq<string>)
    ensures SortedStrings(SortStrings(s))
  {
    if s != [] {
      SortStringsSorted(s[..|s| - 1]);
      InsertStringSorted(SortStrings(s[..|s| - 1]), s[|s| - 1]);
    }
  }

  /** Two sorted lists with the same elements start alike. */
  lemma SortedStringsHeads(a: seq<string>, b: seq<string>)
    requires SortedStrings(a) && SortedStrings(b) && multiset(a) == multiset(b)
    requires a != [] && b != []
    ensures a[0] == b[0]
  {
    assert a[0] in multiset(b);
    var k :| 0 <= k < |b| && b[k] == a[0];
    assert b[0] in multiset(a);
    var m :| 0 <= m < |a| && a[m] == b[0];
    assert StrLe(b[0], a[0]) by {
      if k > 0 { assert StrLe(b[0], b[k]); } else { StrLeReflexive(a[0]); }
    }
    assert StrLe(a[0], b[0]) by {
      if m > 0 { assert StrLe(a[0], a[m]); } else { StrLeReflexive(a[0]); }
    }
    StrLeAntisymmetric(a[0], b[0]);
  }

  lemma TailMultiset(a: seq<string>)
    requires a != []
    ensures multiset(a[1..]) == multiset(a) - multiset{a[0]}
  {
    assert a == [a[0]] + a[1..];
  }

  /** Two sorted lists with the same elements are the same list. */
  lemma {:induction false} SortedStringsUnique(a: seq<string>, b: seq<string>)
    requires SortedStrings(a) && SortedStrings(b) && multiset(a) == multiset(b)
    ensures a == b
  {
    assert |a| == |multiset(a)| == |multiset(b)| == |b|;
    if a != [] {
      SortedStringsHeads(a, b);
      TailMultiset(a);
      TailMultiset(b);
      SortedStringsTail(a);
      SortedStringsTail(b);
      SortedStringsUnique(a[1..], b[1..]);
      assert a == [a[0]] + a[1..] && b == [b[0]] + b[1..];
    }
  }

  /** Sorting ignores the order of its input. */
  lemma SortStringsOrderInsensitive(a: seq<string>, b: seq<string>)
    requires multiset(a) == multiset(b)
    ensures SortStrings(a) == SortStrings(b)
  {
    SortStringsSorted(a);
    SortStringsSorted(b);
    SortedStringsUnique(SortStrings(a), SortStrings(b));
  }

  // ---------------------------------------------------------------------
  // A stable sort by a numeric key

  predicate SortedBy<T>(s: seq<T>, key: T -> real) {
    forall i, j :: 0 <= i < j < |s| ==> key(s[i]) <= key(s[j])
  }

  /** Insertion after every element whose key is not larger. */
  function InsertBy<T>(s: seq<T>, x: T, key: T -> real): (r: seq<T>)
    ensures multiset(r) == multiset(s) + multiset{x}
    ensures |r| == |s| + 1
  {
    if s == [] then [x]
    else if key(x) < key(s[0]) then [x] + s
    else
      assert s == [s[0]] + s[1..];
      [s[0]] + InsertBy(s[1..], x, key)
  }

  /** `sorted(items, key=key)`. */
  function SortBy<T>(s: seq<T>, key: T -> real): (r: seq<T>)
    ensures multiset(r) == multiset(s)
    ensures |r| == |s|
  {
    if s == [] then []
    else
      assert s == s[..|s| - 1] + [s[|s| - 1]];
      InsertBy(SortBy(s[..|s| - 1], key), s[|s| - 1], key)
  }

  lemma SortedByTail<T>(s: seq<T>, key: T -> real)
    requires SortedBy(s, key) && s != []
    ensures SortedBy(s[1..], key)
  {
    var tail := s[1..];
    forall i, j | 0 <= i < j < |tail| ensures key(tail[i]) <= key(tail[j]) {
      assert tail[i] == s[i + 1] && tail[j] == s[j + 1];
    }
  }

  lemma ConsSortedBy<T>(h: T, t: seq<T>, key: T -> real)
    requires SortedBy(t, key)
    requires forall y :: y in t ==> key(h) <= key(y)
    ensures SortedBy([h] + t, key)
  {
    var r := [h] + t;
    forall i, j | 0 <= i < j < |r| ensures key(r[i]) <= key(r[j]) {
      assert r[j] == t[j - 1];
      if i > 0 {
        assert r[i] == t[i - 1];
      }
    }
  }

  lemma {:induction false} InsertBySorted<T>(s: seq<T>, x: T, key: T -> real)
    requires SortedBy(s, key)
    ensures SortedBy(InsertBy(s, x, key), key)
  {
    if s == [] {
    } else if key(x) < key(s[0]) {
      forall y | y in s ensures key(x) <= key(y) {
        var m :| 0 <= m < |s| && s[m] == y;
        if m > 0 {
          assert key(s[0]) <= key(s[m]);
        }
      }
      ConsSortedBy(x, s, key);
    } else {
      var tail := s[1..];
      SortedByTail(s, key);
      InsertBySorted(tail, x, key);
      forall y | y in InsertBy(tail, x, key) ensures key(s[0]) <= key(y) {
        assert y in multiset(InsertBy(tail, x, key));
        if y != x {
          assert y in multiset(tail);
          var m :| 0 <= m < |tail| && tail[m] == y;
          assert s[m + 1] == y;
        }
      }
      ConsSortedBy(s[0], InsertBy(tail, x, key), key);
    }
  }

  lemma {:induction false} SortBySorted<T>(s: seq<T>, key: T -> real)
    ensures SortedBy(SortBy(s, key), key)
  {
    if s != [] {
      SortBySorted(s[..|s| - 1], key);
      InsertBySorted(SortBy(s[..|s| - 1], key), s[|s| - 1], key);
    }
  }

  /** The elements with key `v`, in order. */
  function WithKey<T>(s: seq<T>, key: T -> real, v: real): seq<T> {
    if s == [] then []
    else (if key(s[0]) == v then [s[0]] else []) + WithKey(s[1..], key, v)
  }

  lemma {:induction false} WithKeyAppend<T>(a: seq<T>, b: seq<T>, key: T -> real, v: real)
    ensures WithKey(a + b, key, v) == WithKey(a, key, v) + WithKey(b, key, v)
  {
    if a == [] {
      assert a + b == b;
    } else {
      var head := if key(a[0]) == v then [a[0]] else [];
      assert (a + b)[0] == a[0] && (a + b)[1..] == a[1..] + b;
      assert WithKey(a + b, key, v) == head + WithKey(a[1..] + b, key, v);
      WithKeyAppend(a[1..], b, key, v);
      assert WithKey(a, key, v) == head + WithKey(a[1..], key, v);
    }
  }

  /** A sorted list whose first key exceeds `v` has no element of key `v`. */
  lemma {:induction false} NoneWithKey<T>(s: seq<T>, key: T -> real, v: real)
    requires SortedBy(s, key) && s != [] && v < key(s[0])
    ensures WithKey(s, key, v) == []
  {
    if |s| > 1 {
      SortedByTail(s, key);
      assert key(s[0]) <= key(s[1]);
      NoneWithKey(s[1..], key, v);
    }
  }

  /** The keyed elements of a one-element list. */
  lemma WithKeySingleton<T>(x: T, key: T -> real, v: real)
    ensures WithKey([x], key, v) == if key(x) == v then [x] else []
  {
    var e: seq<T> := [];
    assert [x][1..] == e && WithKey(e, key, v) == e;
    assert [x][0] == x;
  }

  /** Inserting in front of a sorted list whose first key is larger. */
  lemma InsertInFrontWithKey<T>(s: seq<T>, x: T, key: T -> real, v: real)
    requires SortedBy(s, key) && s != [] && key(x) < key(s[0])
    ensures WithKey(InsertBy(s, x, key), key, v) == WithKey(s, key, v) + WithKey([x], key, v)
  {
    WithKeySingleton(x, key, v);
    var r := InsertBy(s, x, key);
    assert r == [x] + s && r[1..] == s;
    assert WithKey(r, key, v) == WithKey([x], key, v) + WithKey(s, key, v);
    if key(x) == v {
      NoneWithKey(s, key, v);
    }
  }

  /** Inserting behind the first element, given the insertion into the
      rest. */
  lemma InsertBehindWithKey<T>(s: seq<T>, x: T, key: T -> real, v: real)
    requires s != [] && !(key(x) < key(s[0]))
    requires WithKey(InsertBy(s[1..], x, key), key, v) == WithKey(s[1..], key, v) + WithKey([x], key, v)
    ensures WithKey(InsertBy(s, x, key), key, v) == WithKey(s, key, v) + WithKey([x], key, v)
  {
    var tail := s[1..];
    var r := InsertBy(s, x, key);
    var head := if key(s[0]) == v then [s[0]] else [];
    assert r[0] == s[0] && r[1..] == InsertBy(tail, x, key);
    assert WithKey(r, key, v) == head + (WithKey(tail, key, v) + WithKey([x], key, v));
    assert WithKey(s, key, v) == head + WithKey(tail, key, v);
    ConcatAssoc(head, WithKey(tail, key, v), WithKey([x], key, v));
  }

  lemma ConcatAssoc<T>(a: seq<T>, b: seq<T>, c: seq<T>)
    ensures a + (b + c) == (a + b) + c
  {
  }

  /** Inserting behind every element of a not larger key puts the new
      element last among those of its own key. */
  lemma {:induction false} InsertByWithKey<T>(s: seq<T>, x: T, key: T -> real, v: real)
    requires SortedBy(s, key)
    ensures WithKey(InsertBy(s, x, key), key, v) == WithKey(s, key, v) + WithKey([x], key, v)
  {
    if s == [] {
      WithKeySingleton(x, key, v);
      assert InsertBy(s, x, key) == [x];
    } else if key(x) < key(s[0]) {
      InsertInFrontWithKey(s, x, key, v);
    } else {
      SortedByTail(s, key);
      InsertByWithKey(s[1..], x, key, v);
      InsertBehindWithKey(s, x, key, v);
    }
  }

  /** Stability: the elements of any one key keep their input order. */
  lemma {:induction false} SortByStable<T>(s: seq<T>, key: T -> real, v: real)
    ensures WithKey(SortBy(s, key), key, v) == WithKey(s, key, v)
  {
    if s != [] {
      var init := s[..|s| - 1];
      SortByStable(init, key, v);
      SortBySorted(init, key);
      InsertByWithKey(SortBy(init, key), s[|s| - 1], key, v);
      assert s == init + [s[|s| - 1]];
      WithKeyAppend(init, [s[|s| - 1]], key, v);
    }
  }

  /** `sorted(items, key=key, reverse=True)`: Python keeps equal elements in
      their input order, as an ascending stable sort on the negated key does. */
  function SortByDescending<T>(s: seq<T>, key: T -> real): (r: seq<T>)
    ensures multiset(r) == multiset(s)
  {
    SortBy(s, (x: T) => -key(x))
  }

  lemma SortByDescendingSorted<T>(s: seq<T>, key: T -> real)
    ensures forall i, j :: 0 <= i < j < |SortByDescending(s, key)| ==>
      key(SortByDescending(s, key)[i]) >= key(SortByDescending(s, key)[j])
  {
    SortBySorted(s, (x: T) => -key(x));
  }
}
