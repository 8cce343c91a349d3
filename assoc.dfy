/** Python dictionaries keep insertion order; where that order is observable
    the model represents a dictionary as a sequence of key/value pairs. */
module Assoc {
  import opened Wrappers

  function Keys<K, V>(a: seq<(K, V)>): (ks: seq<K>)
    ensures |ks| == |a|
    ensures forall i :: 0 <= i < |a| ==> ks[i] == a[i].0
  {
    if a == [] then [] else [a[0].0] + Keys(a[1..])
  }

  function Values<K, V>(a: seq<(K, V)>): (vs: seq<V>)
    ensures |vs| == |a|
    ensures forall i :: 0 <= i < |a| ==> vs[i] == a[i].1
  {
    if a == [] then [] else [a[0].1] + Values(a[1..])
  }

  predicate HasKey<K(==), V>(a: seq<(K, V)>, k: K) {
    k in Keys(a)
  }

  predicate UniqueKeys<K(==), V>(a: seq<(K, V)>) {
    forall i, j :: 0 <= i < j < |a| ==> a[i].0 != a[j].0
  }

  /** Index of the first entry whose key is `k`. */
  function IndexOf<K(==), V>(a: seq<(K, V)>, k: K): (i: nat)
    requires HasKey(a, k)
    ensures i < |a| && a[i].0 == k
    ensures forall j :: 0 <= j < i ==> a[j].0 != k
  {
    if a[0].0 == k then 0 else IndexOf(a[1..], k) + 1
  }

  /** `d.get(k)`. */
  function Get<K(==), V>(a: seq<(K, V)>, k: K): (r: Option<V>)
    ensures r.Some? <==> HasKey(a, k)
    ensures r.Some? ==> r.value == a[IndexOf(a, k)].1
  {
    if HasKey(a, k) then Some(a[IndexOf(a, k)].1) else None
  }

  /** `d[k] = v`: an existing key keeps its position, a new key goes last. */
  function Put<K(==), V>(a: seq<(K, V)>, k: K, v: V): (r: seq<(K, V)>)
    ensures HasKey(a, k) ==> r == a[IndexOf(a, k) := (k, v)]
    ensures !HasKey(a, k) ==> r == a + [(k, v)]
  {
    if HasKey(a, k) then a[IndexOf(a, k) := (k, v)] else a + [(k, v)]
  }

  lemma PutKeys<K, V>(a: seq<(K, V)>, k: K, v: V)
    ensures HasKey(a, k) ==> Keys(Put(a, k, v)) == Keys(a)
    ensures !HasKey(a, k) ==> Keys(Put(a, k, v)) == Keys(a) + [k]
  {
  }

  lemma PutUnique<K, V>(a: seq<(K, V)>, k: K, v: V)
    requires UniqueKeys(a)
    ensures UniqueKeys(Put(a, k, v))
    ensures Get(Put(a, k, v), k) == Some(v)
  {
    var r := Put(a, k, v);
    if !HasKey(a, k) {
      assert forall i :: 0 <= i < |a| ==> a[i].0 in Keys(a);
      assert k in Keys(r) by { assert Keys(r)[|a|] == k; }
      assert IndexOf(r, k) == |a|;
    } else {
      var i := IndexOf(a, k);
      assert k in Keys(r) by { assert Keys(r)[i] == k; }
      assert IndexOf(r, k) == i;
    }
  }

  /** The first index of a key is determined by the keys before it. */
  lemma IndexOfAt<K, V>(a: seq<(K, V)>, k: K, i: nat)
    requires i < |a| && a[i].0 == k
    requires forall j :: 0 <= j < i ==> a[j].0 != k
    ensures HasKey(a, k) && IndexOf(a, k) == i
  {
    assert Keys(a)[i] == k;
  }

  /** `d[k] = v` then `d.get(c)`: the new value for `k`, the old one otherwise. */
  lemma GetPut<K, V>(a: seq<(K, V)>, k: K, v: V, c: K)
    ensures Get(Put(a, k, v), c) == if c == k then Some(v) else Get(a, c)
  {
    PutKeys(a, k, v);
    var r := Put(a, k, v);
    if c == k {
      if HasKey(a, k) {
        IndexOfAt(r, k, IndexOf(a, k));
      } else {
        assert forall j :: 0 <= j < |a| ==> a[j].0 in Keys(a);
        IndexOfAt(r, k, |a|);
      }
    } else if HasKey(a, c) {
      IndexOfAt(r, c, IndexOf(a, c));
    } else {
      assert !HasKey(r, c);
    }
  }

  /** With distinct keys, the last pair answers for its own key and the
      pairs before it for every other key. */
  lemma GetLastUnique<K, V>(a: seq<(K, V)>, c: K)
    requires a != [] && UniqueKeys(a)
    ensures UniqueKeys(a[..|a| - 1])
    ensures Get(a, c) == if c == a[|a| - 1].0 then Some(a[|a| - 1].1) else Get(a[..|a| - 1], c)
  {
    var init := a[..|a| - 1];
    var last := a[|a| - 1];
    assert UniqueKeys(init) by {
      forall i, j | 0 <= i < j < |init| ensures init[i].0 != init[j].0 {
        assert init[i] == a[i] && init[j] == a[j];
      }
    }
    if c == last.0 {
      IndexOfAt(a, c, |a| - 1);
    } else if HasKey(init, c) {
      IndexOfAt(a, c, IndexOf(init, c));
    } else {
      assert !HasKey(a, c) by {
        forall j | 0 <= j < |a| ensures a[j].0 != c {
          if j < |init| {
            assert init[j] == a[j];
            assert Keys(init)[j] == init[j].0;
          }
        }
      }
    }
  }
}
