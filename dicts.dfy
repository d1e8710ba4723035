/**
 * Python dictionaries whose iteration order matters: an association list of
 * distinct keys in insertion order. Assigning to an existing key keeps its
 * position; assigning to a new key appends it; `pop` removes it.
 */
module Dicts {
  import opened Common

  type Dict<K, V> = seq<(K, V)>

  function Keys<K, V>(d: Dict<K, V>): (r: seq<K>)
    ensures |r| == |d|
    ensures forall i :: 0 <= i < |d| ==> r[i] == d[i].0
  {
    if d == [] then [] else [d[0].0] + Keys(d[1..])
  }

  function Values<K, V>(d: Dict<K, V>): (r: seq<V>)
    ensures |r| == |d|
    ensures forall i :: 0 <= i < |d| ==> r[i] == d[i].1
  {
    if d == [] then [] else [d[0].1] + Values(d[1..])
  }

  predicate Distinct<K(==)>(s: seq<K>)
  {
    forall i, j :: 0 <= i < j < |s| ==> s[i] != s[j]
  }

  /** No key occurs twice. */
  predicate WellFormed<K(==), V>(d: Dict<K, V>)
  {
    Distinct(Keys(d))
  }

  predicate HasKey<K(==), V>(d: Dict<K, V>, k: K)
  {
    k in Keys(d)
  }

  /** Python's `d.get(k)`: the value of the first entry with key `k`. */
  function Get<K(==), V>(d: Dict<K, V>, k: K): (r: Option<V>)
    ensures r.None? <==> !HasKey(d, k)
  {
    if d == [] then None
    else if d[0].0 == k then Some(d[0].1)
    else Get(d[1..], k)
  }

  /** What `get` finds is an entry of the dictionary. */
  lemma {:induction false} GetEntry<K, V>(d: Dict<K, V>, k: K)
    requires HasKey(d, k)
    ensures (k, Get(d, k).value) in d
  {
    if d[0].0 != k {
      assert Keys(d[1..]) == Keys(d)[1..];
      GetEntry(d[1..], k);
    }
  }

  /** Under distinct keys the entry at index `i` is the one `get` finds. */
  lemma {:induction false} GetAt<K, V>(d: Dict<K, V>, i: int)
    requires WellFormed(d) && 0 <= i < |d|
    ensures Get(d, d[i].0) == Some(d[i].1)
  {
    if i > 0 {
      assert Keys(d)[0] != Keys(d)[i];
      assert Keys(d[1..]) == Keys(d)[1..];
      GetAt(d[1..], i - 1);
    }
  }

  /** The position of key `k`: the first entry that holds it. */
  function IndexOf<K(==), V>(d: Dict<K, V>, k: K): (i: nat)
    requires HasKey(d, k)
    ensures i < |d| && d[i].0 == k
    ensures forall j :: 0 <= j < i ==> d[j].0 != k
  {
    if d[0].0 == k then 0
    else
      assert Keys(d[1..]) == Keys(d)[1..];
      1 + IndexOf(d[1..], k)
  }

  /** Python's `d[k] = v`. */
  function Put<K(==,!new), V>(d: Dict<K, V>, k: K, v: V): (r: Dict<K, V>)
    ensures Keys(r) == if HasKey(d, k) then Keys(d) else Keys(d) + [k]
    ensures Get(r, k) == Some(v)
    ensures forall k' :: k' != k ==> Get(r, k') == Get(d, k')
  {
    if d == [] then [(k, v)]
    else if d[0].0 == k then [(k, v)] + d[1..]
    else
      assert Keys(d[1..]) == Keys(d)[1..];
      [d[0]] + Put(d[1..], k, v)
  }

  /** Python's `d.pop(k, None)`. */
  function Remove<K(==), V>(d: Dict<K, V>, k: K): (r: Dict<K, V>)
    ensures !HasKey(r, k)
    ensures forall i :: 0 <= i < |r| ==> r[i] in d
  {
    if d == [] then []
    else if d[0].0 == k then Remove(d[1..], k)
    else [d[0]] + Remove(d[1..], k)
  }

  lemma {:induction false} RemoveGet<K, V>(d: Dict<K, V>, k: K, k': K)
    requires k' != k
    ensures Get(Remove(d, k), k') == Get(d, k')
  {
    if d != [] { RemoveGet(d[1..], k, k'); }
  }

  lemma {:induction false} RemoveHasKey<K, V>(d: Dict<K, V>, k: K, k': K)
    ensures HasKey(Remove(d, k), k') <==> HasKey(d, k') && k' != k
  {
    if d != [] { RemoveHasKey(d[1..], k, k'); }
  }

  lemma {:induction false} RemoveWellFormed<K, V>(d: Dict<K, V>, k: K)
    requires WellFormed(d)
    ensures WellFormed(Remove(d, k))
  {
    if d != [] {
      assert Keys(d[1..]) == Keys(d)[1..];
      RemoveWellFormed(d[1..], k);
      RemoveHasKey(d[1..], k, d[0].0);
      var rest := Remove(d[1..], k);
      if d[0].0 != k {
        assert Keys([d[0]] + rest) == [d[0].0] + Keys(rest);
      }
    }
  }

  lemma {:induction false} PutWellFormed<K(!new), V>(d: Dict<K, V>, k: K, v: V)
    requires WellFormed(d)
    ensures WellFormed(Put(d, k, v))
  {
    var ks := Keys(d);
    if !HasKey(d, k) {
      var ks' := ks + [k];
      forall i, j | 0 <= i < j < |ks'|
        ensures ks'[i] != ks'[j]
      {
        if j == |ks| {
          assert ks'[i] == ks[i] && ks[i] in ks;
        } else {
          assert ks'[i] == ks[i] && ks'[j] == ks[j];
        }
      }
    }
  }

  /** Assigning to a present key replaces its first entry in place. */
  lemma {:induction false} PutPresent<K(!new), V>(d: Dict<K, V>, k: K, v: V)
    requires HasKey(d, k)
    ensures |Put(d, k, v)| == |d|
    ensures forall i :: 0 <= i < |d| ==> Put(d, k, v)[i] == if i == IndexOf(d, k) then (k, v) else d[i]
  {
    var r := Put(d, k, v);
    if d[0].0 == k {
      assert r == [(k, v)] + d[1..];
    } else {
      assert Keys(d[1..]) == Keys(d)[1..];
      PutPresent(d[1..], k, v);
      var rest := Put(d[1..], k, v);
      var j := IndexOf(d[1..], k);
      assert r == [d[0]] + rest && IndexOf(d, k) == 1 + j;
      forall i | 0 <= i < |d|
        ensures r[i] == if i == 1 + j then (k, v) else d[i]
      {
        if i == 0 {
          assert r[0] == d[0];
        } else {
          assert rest[i - 1] == if i - 1 == j then (k, v) else d[1..][i - 1];
          ConsIndex(d[0], rest, i);
          assert d[1..][i - 1] == d[i];
        }
      }
    }
  }

  lemma ConsIndex<T>(x: T, s: seq<T>, i: int)
    requires 0 < i <= |s|
    ensures ([x] + s)[i] == s[i - 1]
  {
  }

  /** Assigning to a new key appends it. */
  lemma {:induction false} PutAbsent<K(!new), V>(d: Dict<K, V>, k: K, v: V)
    requires forall i :: 0 <= i < |d| ==> d[i].0 != k
    ensures Put(d, k, v) == d + [(k, v)]
  {
    if d != [] {
      PutAbsent(d[1..], k, v);
      assert Put(d, k, v) == [d[0]] + Put(d[1..], k, v);
      PrependAppend(d, (k, v));
    }
  }

  /** Every entry of `Put(d, k, v)` is `(k, v)` or the entry of `d` at the same index. */
  lemma PutOrigin<K(!new), V>(d: Dict<K, V>, k: K, v: V)
    ensures forall i :: 0 <= i < |Put(d, k, v)| ==> Put(d, k, v)[i] == (k, v) || (i < |d| && Put(d, k, v)[i] == d[i])
  {
    if HasKey(d, k) {
      PutPresent(d, k, v);
    } else {
      PutAbsent(d, k, v);
    }
  }

  lemma PrependAppend<T>(s: seq<T>, x: T)
    requires s != []
    ensures [s[0]] + (s[1..] + [x]) == s + [x]
  {
  }

  lemma {:induction false} HasKeyPut<K(!new), V>(d: Dict<K, V>, k: K, v: V, k': K)
    ensures HasKey(Put(d, k, v), k') <==> HasKey(d, k') || k' == k
  {
  }
}
