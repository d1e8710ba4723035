/**
 * Python's `sorted(xs, key=..., reverse=True)`: a stable sort that puts larger
 * keys first and keeps elements with equal keys in their original order.
 * Keys are pairs compared lexicographically, which also covers the sources'
 * tuple keys such as `(tier, -score)`.
 */
module Sorting {

  datatype SortKey = SortKey(primary: real, secondary: real)

  /** `a` sorts strictly before `b`. */
  predicate Above(a: SortKey, b: SortKey)
  {
    a.primary > b.primary || (a.primary == b.primary && a.secondary > b.secondary)
  }

  predicate AtLeast(a: SortKey, b: SortKey)
  {
    !Above(b, a)
  }

  /** Inserts `x` before the first element whose key does not exceed its own. */
  function Insert<T>(x: T, s: seq<T>, key: T -> SortKey): (r: seq<T>)
    ensures |r| == |s| + 1
    decreases |s|
  {
    if s == [] then [x]
    else if AtLeast(key(x), key(s[0])) then [x] + s
    else [s[0]] + Insert(x, s[1..], key)
  }

  function SortDesc<T>(s: seq<T>, key: T -> SortKey): (r: seq<T>)
    ensures |r| == |s|
  {
    if s == [] then [] else Insert(s[0], SortDesc(s[1..], key), key)
  }

  predicate SortedDesc<T>(s: seq<T>, key: T -> SortKey)
  {
    forall i, j :: 0 <= i < j < |s| ==> AtLeast(key(s[i]), key(s[j]))
  }

  /** The elements of `s` whose key is `k`, in order. */
  function WithKey<T>(s: seq<T>, key: T -> SortKey, k: SortKey): (r: seq<T>)
    ensures |r| <= |s|
  {
    if s == [] then []
    else if key(s[0]) == k then [s[0]] + WithKey(s[1..], key, k)
    else WithKey(s[1..], key, k)
  }

  /**
   * The first element of `s` with the greatest key: the reference for
   * `sorted(...)[0]`.
   */
  function FirstMax<T>(s: seq<T>, key: T -> SortKey): T
    requires |s| > 0
  {
    if |s| == 1 then s[0]
    else
      var m := FirstMax(s[1..], key);
      if AtLeast(key(s[0]), key(m)) then s[0] else m
  }

  lemma {:induction false} InsertElements<T>(x: T, s: seq<T>, key: T -> SortKey)
    ensures multiset(Insert(x, s, key)) == multiset(s) + multiset{x}
    decreases |s|
  {
    if s != [] && !AtLeast(key(x), key(s[0])) {
      InsertElements(x, s[1..], key);
      assert s == [s[0]] + s[1..];
    }
  }

  /** A key bounding `x` and every element of `s` bounds every element after the insertion. */
  lemma {:induction false} InsertBound<T>(x: T, s: seq<T>, key: T -> SortKey, b: SortKey)
    requires AtLeast(b, key(x))
    requires forall i :: 0 <= i < |s| ==> AtLeast(b, key(s[i]))
    ensures forall i :: 0 <= i < |Insert(x, s, key)| ==> AtLeast(b, key(Insert(x, s, key)[i]))
    decreases |s|
  {
    if s != [] && !AtLeast(key(x), key(s[0])) {
      InsertBound(x, s[1..], key, b);
    }
  }

  lemma {:induction false} InsertSorted<T>(x: T, s: seq<T>, key: T -> SortKey)
    requires SortedDesc(s, key)
    ensures SortedDesc(Insert(x, s, key), key)
    ensures Insert(x, s, key)[0] == if s == [] || AtLeast(key(x), key(s[0])) then x else s[0]
    decreases |s|
  {
    if s != [] && !AtLeast(key(x), key(s[0])) {
      var t := Insert(x, s[1..], key);
      InsertSorted(x, s[1..], key);
      InsertBound(x, s[1..], key, key(s[0]));
      assert Insert(x, s, key) == [s[0]] + t;
    }
  }

  lemma {:induction false} InsertWithKey<T>(x: T, s: seq<T>, key: T -> SortKey, k: SortKey)
    requires SortedDesc(s, key)
    ensures WithKey(Insert(x, s, key), key, k)
         == if key(x) == k then [x] + WithKey(s, key, k) else WithKey(s, key, k)
    decreases |s|
  {
    if s != [] {
      if AtLeast(key(x), key(s[0])) {
        assert Insert(x, s, key) == [x] + s;
        assert ([x] + s)[1..] == s;
      } else {
        InsertWithKey(x, s[1..], key, k);
        // every element of `s` in front of the insertion point has a key
        // strictly above `key(x)`, so none of them has the key `k == key(x)`
        assert key(s[0]) != key(x);
        assert ([s[0]] + Insert(x, s[1..], key))[1..] == Insert(x, s[1..], key);
      }
    }
  }

  /** The sort orders by key. */
  lemma {:induction false} SortDescSorted<T>(s: seq<T>, key: T -> SortKey)
    ensures SortedDesc(SortDesc(s, key), key)
  {
    if s != [] {
      SortDescSorted(s[1..], key);
      InsertSorted(s[0], SortDesc(s[1..], key), key);
    }
  }

  /** The sort neither loses nor adds an element. */
  lemma {:induction false} SortDescPermutes<T>(s: seq<T>, key: T -> SortKey)
    ensures multiset(SortDesc(s, key)) == multiset(s)
  {
    if s != [] {
      SortDescPermutes(s[1..], key);
      InsertElements(s[0], SortDesc(s[1..], key), key);
      assert s == [s[0]] + s[1..];
    }
  }

  /** The sort is stable: elements with equal keys keep their relative order. */
  lemma {:induction false} SortDescStable<T>(s: seq<T>, key: T -> SortKey, k: SortKey)
    ensures WithKey(SortDesc(s, key), key, k) == WithKey(s, key, k)
  {
    if s != [] {
      SortDescStable(s[1..], key, k);
      SortDescSorted(s[1..], key);
      InsertWithKey(s[0], SortDesc(s[1..], key), key, k);
    }
  }

  /** The head of the sorted sequence is the first element with the greatest key. */
  lemma {:induction false} SortDescHead<T>(s: seq<T>, key: T -> SortKey)
    requires |s| > 0
    ensures SortDesc(s, key)[0] == FirstMax(s, key)
  {
    if |s| > 1 {
      SortDescHead(s[1..], key);
      SortDescSorted(s[1..], key);
      InsertSorted(s[0], SortDesc(s[1..], key), key);
    } else {
      SortDescSorted(s[1..], key);
      InsertSorted(s[0], SortDesc(s[1..], key), key);
    }
  }

  /** `FirstMax` has a key at least that of every element, and it is one of them. */
  lemma {:induction false} FirstMaxIsMax<T>(s: seq<T>, key: T -> SortKey)
    requires |s| > 0
    ensures FirstMax(s, key) in s
    ensures forall i :: 0 <= i < |s| ==> AtLeast(key(FirstMax(s, key)), key(s[i]))
  {
    if |s| > 1 {
      FirstMaxIsMax(s[1..], key);
      assert forall i :: 1 <= i < |s| ==> s[i] == s[1..][i - 1];
    }
  }

  /** Every element before `FirstMax` has a strictly smaller key. */
  lemma {:induction false} FirstMaxIsFirst<T>(s: seq<T>, key: T -> SortKey, i: nat)
    requires i < |s| && s[i] == FirstMax(s, key)
    requires forall j :: 0 <= j < i ==> s[j] != s[i]
    ensures forall j :: 0 <= j < i ==> Above(key(s[i]), key(s[j]))
  {
    if |s| > 1 && i > 0 {
      FirstMaxIsMax(s[1..], key);
      assert s[1..][i - 1] == s[i];
      FirstMaxIsFirst(s[1..], key, i - 1);
    }
  }
}
