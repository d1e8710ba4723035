/**
 * Python's filtering list comprehensions, `[x for x in xs if keep(x)]` and
 * the variant that keeps the present results of a partial map, with the
 * facts the models need: what is kept passes, what passes is kept, and
 * nothing is made up.
 */
module Filters {
  import opened Common

  function Filter<T>(s: seq<T>, keep: T -> bool): (r: seq<T>)
    ensures |r| <= |s|
  {
    if s == [] then [] else (if keep(s[0]) then [s[0]] else []) + Filter(s[1..], keep)
  }

  /** Filtering from index `i` on takes or skips the element at `i`. */
  lemma FilterStep<T>(s: seq<T>, i: nat, keep: T -> bool)
    requires i < |s|
    ensures Filter(s[i..], keep) == (if keep(s[i]) then [s[i]] else []) + Filter(s[i + 1..], keep)
  {
    assert s[i..][1..] == s[i + 1..];
  }

  /** Everything kept passes the test. */
  lemma {:induction false} FilterSound<T>(s: seq<T>, keep: T -> bool)
    ensures forall k :: 0 <= k < |Filter(s, keep)| ==> keep(Filter(s, keep)[k])
  {
    if s != [] {
      FilterSound(s[1..], keep);
    }
  }

  /** Everything that passes is kept, and each element at most as often as it occurs. */
  lemma {:induction false} FilterComplete<T>(s: seq<T>, keep: T -> bool)
    ensures forall x :: x in s && keep(x) ==> x in Filter(s, keep)
    ensures multiset(Filter(s, keep)) <= multiset(s)
  {
    if s != [] {
      FilterComplete(s[1..], keep);
      assert s == [s[0]] + s[1..];
    }
  }

  /** Any reordering of the filtered sequence holds exactly the passing elements of the original. */
  lemma FilterReordered<T>(s: seq<T>, keep: T -> bool, r: seq<T>)
    requires multiset(r) == multiset(Filter(s, keep))
    ensures forall k :: 0 <= k < |r| ==> r[k] in s && keep(r[k])
    ensures forall x :: x in s && keep(x) ==> x in r
  {
    FilterSound(s, keep);
    FilterComplete(s, keep);
    var f := Filter(s, keep);
    forall k | 0 <= k < |r| ensures r[k] in s && keep(r[k]) {
      assert r[k] in multiset(f);
      var j :| 0 <= j < |f| && f[j] == r[k];
      assert r[k] in multiset(s);
    }
    forall x | x in s && keep(x) ensures x in r {
      assert x in multiset(f);
    }
  }

  /** `Filter` computed by a loop that appends. */
  method FilterLoop<T>(s: seq<T>, keep: T -> bool) returns (r: seq<T>)
    ensures r == Filter(s, keep)
  {
    r := [];
    var i := 0;
    while i < |s|
      invariant 0 <= i <= |s|
      invariant r + Filter(s[i..], keep) == Filter(s, keep)
    {
      FilterStep(s, i, keep);
      if keep(s[i]) {
        r := r + [s[i]];
      }
      i := i + 1;
    }
    assert s[i..] == [];
  }

  /** Python's `[f(x) for x in xs]` keeping only the present results. */
  function FilterMap<T, U>(s: seq<T>, f: T -> Option<U>): (r: seq<U>)
    ensures |r| <= |s|
  {
    if s == [] then [] else (if f(s[0]).Some? then [f(s[0]).value] else []) + FilterMap(s[1..], f)
  }

  lemma FilterMapStep<T, U>(s: seq<T>, i: nat, f: T -> Option<U>)
    requires i < |s|
    ensures FilterMap(s[i..], f) == (if f(s[i]).Some? then [f(s[i]).value] else []) + FilterMap(s[i + 1..], f)
  {
    assert s[i..][1..] == s[i + 1..];
  }

  /** Every result stems from some element. */
  lemma {:induction false} FilterMapOrigin<T, U>(s: seq<T>, f: T -> Option<U>)
    ensures forall k :: 0 <= k < |FilterMap(s, f)| ==> exists i :: 0 <= i < |s| && f(s[i]) == Some(FilterMap(s, f)[k])
  {
    if s != [] {
      FilterMapOrigin(s[1..], f);
      var head: seq<U> := if f(s[0]).Some? then [f(s[0]).value] else [];
      var rest := FilterMap(s[1..], f);
      assert FilterMap(s, f) == head + rest;
      forall k | 0 <= k < |FilterMap(s, f)|
        ensures exists i :: 0 <= i < |s| && f(s[i]) == Some(FilterMap(s, f)[k])
      {
        if k < |head| {
          assert f(s[0]) == Some(FilterMap(s, f)[k]);
        } else {
          var j := k - |head|;
          assert 0 <= j < |rest| && FilterMap(s, f)[k] == rest[j];
          var i :| 0 <= i < |s[1..]| && f(s[1..][i]) == Some(rest[j]);
          assert s[1..][i] == s[i + 1];
          assert 0 <= i + 1 < |s| && f(s[i + 1]) == Some(FilterMap(s, f)[k]);
        }
      }
    } else {
      assert FilterMap(s, f) == [];
    }
  }

  /** Every present result is kept. */
  lemma {:induction false} FilterMapComplete<T, U>(s: seq<T>, f: T -> Option<U>)
    ensures forall i :: 0 <= i < |s| && f(s[i]).Some? ==> f(s[i]).value in FilterMap(s, f)
  {
    if s != [] {
      FilterMapComplete(s[1..], f);
      forall i | 0 <= i < |s| && f(s[i]).Some? ensures f(s[i]).value in FilterMap(s, f) {
        if i > 0 {
          assert s[i] == s[1..][i - 1];
        }
      }
    }
  }

  /** `FilterMap` computed by a loop that appends. */
  method FilterMapLoop<T, U>(s: seq<T>, f: T -> Option<U>) returns (r: seq<U>)
    ensures r == FilterMap(s, f)
  {
    r := [];
    var i := 0;
    while i < |s|
      invariant 0 <= i <= |s|
      invariant r + FilterMap(s[i..], f) == FilterMap(s, f)
    {
      FilterMapStep(s, i, f);
      var y := f(s[i]);
      if y.Some? {
        r := r + [y.value];
      }
      i := i + 1;
    }
    assert s[i..] == [];
  }
}
