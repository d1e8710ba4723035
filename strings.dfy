/**
 * String helpers with Python's meaning: `s.lower()` (on ASCII letters),
 * `sub in s`, `str(n)`, `s[:n]`, `s.split(sep)` and `s.split()`.
 */
module Strings {

  /** Python's `c.lower()` restricted to the ASCII letters. */
  function LowerChar(c: char): char
  {
    if 'A' <= c <= 'Z' then (c as int + 32) as char else c
  }

  function Lower(s: string): (r: string)
    ensures |r| == |s|
    ensures forall i :: 0 <= i < |s| ==> r[i] == LowerChar(s[i])
  {
    if s == [] then [] else [LowerChar(s[0])] + Lower(s[1..])
  }

  lemma LowerIdempotent(s: string)
    ensures Lower(Lower(s)) == Lower(s)
  {
    assert forall i :: 0 <= i < |s| ==> LowerChar(LowerChar(s[i])) == LowerChar(s[i]);
  }

  /** Python's `a < b` on strings: code-point order at the first difference, a proper prefix first. */
  predicate LexLess(a: string, b: string)
  {
    if a == [] then b != []
    else if b == [] then false
    else a[0] < b[0] || (a[0] == b[0] && LexLess(a[1..], b[1..]))
  }

  predicate StartsWith(s: string, prefix: string)
  {
    |prefix| <= |s| && s[..|prefix|] == prefix
  }

  /** Python's `sub in s`. */
  predicate Contains(s: string, sub: string)
    decreases |s|
  {
    StartsWith(s, sub) || (|s| > 0 && Contains(s[1..], sub))
  }

  /** `sub` occurs in `s` starting at index `i`. */
  predicate OccursAt(s: string, sub: string, i: nat)
  {
    i + |sub| <= |s| && s[i..i + |sub|] == sub
  }

  lemma {:induction false} ContainsAt(s: string, sub: string, i: nat)
    requires OccursAt(s, sub, i)
    ensures Contains(s, sub)
    decreases i
  {
    if i > 0 {
      assert s[1..][i - 1..i - 1 + |sub|] == sub;
      assert OccursAt(s[1..], sub, i - 1);
      ContainsAt(s[1..], sub, i - 1);
    } else {
      assert StartsWith(s, sub);
    }
  }

  lemma {:induction false} ContainsWitness(s: string, sub: string)
    requires Contains(s, sub)
    ensures exists i: nat :: OccursAt(s, sub, i)
    decreases |s|
  {
    if !StartsWith(s, sub) {
      ContainsWitness(s[1..], sub);
      var i: nat :| OccursAt(s[1..], sub, i);
      assert s[i + 1..i + 1 + |sub|] == s[1..][i..i + |sub|];
      assert OccursAt(s, sub, i + 1);
    } else {
      assert OccursAt(s, sub, 0);
    }
  }

  /** `sub in s` holds exactly when `sub` occurs at some index of `s`. */
  lemma ContainsIff(s: string, sub: string)
    ensures Contains(s, sub) <==> exists i: nat :: OccursAt(s, sub, i)
  {
    if Contains(s, sub) {
      ContainsWitness(s, sub);
    }
    if exists i: nat :: OccursAt(s, sub, i) {
      var i: nat :| OccursAt(s, sub, i);
      ContainsAt(s, sub, i);
    }
  }

  /** A string without the first character of `sub` does not contain `sub`. */
  lemma NotContainsForeignChar(s: string, sub: string)
    requires |sub| > 0 && forall i :: 0 <= i < |s| ==> s[i] != sub[0]
    ensures !Contains(s, sub)
  {
    forall i: nat ensures !OccursAt(s, sub, i) {
      if i + |sub| <= |s| {
        assert s[i..i + |sub|][0] == s[i];
      }
    }
    ContainsIff(s, sub);
  }

  lemma ContainsEmpty(s: string)
    ensures Contains(s, "")
  {
    assert StartsWith(s, "");
  }

  /** A substring of a prefix is a substring of the whole string. */
  lemma ContainsInPrefix(s: string, sub: string, n: nat)
    requires n <= |s| && Contains(s[..n], sub)
    ensures Contains(s, sub)
  {
    ContainsWitness(s[..n], sub);
    var i: nat :| OccursAt(s[..n], sub, i);
    assert s[i..i + |sub|] == s[..n][i..i + |sub|];
    ContainsAt(s, sub, i);
  }

  /** A string contains what its first part contains. */
  lemma ContainsConcatLeft(a: string, b: string, sub: string)
    requires Contains(a, sub)
    ensures Contains(a + b, sub)
  {
    assert (a + b)[..|a|] == a;
    ContainsInPrefix(a + b, sub, |a|);
  }

  /** A string contains what its last part contains. */
  lemma ContainsConcatRight(a: string, b: string, sub: string)
    requires Contains(b, sub)
    ensures Contains(a + b, sub)
  {
    ContainsWitness(b, sub);
    var i: nat :| OccursAt(b, sub, i);
    assert (a + b)[|a| + i..|a| + i + |sub|] == b[i..i + |sub|];
    ContainsAt(a + b, sub, |a| + i);
  }

  /** The index Python uses for `i` in a slice of a sequence of length `n`. */
  function SliceIndex(i: int, n: nat): (r: nat)
    ensures r <= n
  {
    if i < 0 then (if n + i < 0 then 0 else n + i) else if i > n then n else i
  }

  /** Python's `s[:j]`, negative `j` counting from the end. */
  function SliceTo<T>(s: seq<T>, j: int): (r: seq<T>)
    ensures r == s[..SliceIndex(j, |s|)]
  {
    s[..SliceIndex(j, |s|)]
  }

  /** Python's `s[i:]`, negative `i` counting from the end; `s[-0:]` is all of `s`. */
  function SliceFrom<T>(s: seq<T>, i: int): (r: seq<T>)
    ensures r == s[SliceIndex(i, |s|)..]
  {
    s[SliceIndex(i, |s|)..]
  }

  /** `s[-n:]` for `0 < n`: the last `n` elements, or all of them. */
  lemma SliceFromLast<T>(s: seq<T>, n: int)
    requires n > 0
    ensures SliceFrom(s, -n) == if n >= |s| then s else s[|s| - n..]
  {
  }

  /** Python's `reversed(s)`. */
  function Reverse<T>(s: seq<T>): (r: seq<T>)
    ensures |r| == |s|
    ensures forall i :: 0 <= i < |s| ==> r[i] == s[|s| - 1 - i]
  {
    if s == [] then [] else Reverse(s[1..]) + [s[0]]
  }

  function DigitChar(d: nat): char
    requires d < 10
  {
    "0123456789"[d]
  }

  /** Python's `str(n)` on a natural number. */
  function NatToString(n: nat): (r: string)
    ensures |r| > 0
    decreases n
  {
    if n < 10 then [DigitChar(n)] else NatToString(n / 10) + [DigitChar(n % 10)]
  }

  /** Python's `str(i)` on an integer. */
  function IntToString(i: int): string
  {
    if i < 0 then "-" + NatToString(-i) else NatToString(i)
  }

  /**
   * Python's `s.split(sep)` with a one-character separator: the pieces between
   * separators, empty pieces included, so that there is always at least one.
   */
  function SplitOn(s: string, sep: char): (r: seq<string>)
    ensures |r| >= 1
    ensures forall k, j :: 0 <= k < |r| && 0 <= j < |r[k]| ==> r[k][j] != sep
    decreases |s|
  {
    if s == [] then [""]
    else
      var rest := SplitOn(s[1..], sep);
      if s[0] == sep then [""] + rest
      else [[s[0]] + rest[0]] + rest[1..]
  }

  /** Python's `sep.join(pieces)`. */
  function Join(pieces: seq<string>, sep: char): string
    requires |pieces| >= 1
    decreases |pieces|
  {
    if |pieces| == 1 then pieces[0] else pieces[0] + [sep] + Join(pieces[1..], sep)
  }

  /** Splitting and joining again on the same separator gives back the string. */
  lemma {:induction false} JoinSplitOn(s: string, sep: char)
    ensures Join(SplitOn(s, sep), sep) == s
    decreases |s|
  {
    if s != [] {
      var rest := SplitOn(s[1..], sep);
      JoinSplitOn(s[1..], sep);
      if s[0] == sep {
        assert SplitOn(s, sep) == [""] + rest;
        assert ([""] + rest)[1..] == rest;
        assert s == [sep] + s[1..];
      } else {
        var r := SplitOn(s, sep);
        assert r == [[s[0]] + rest[0]] + rest[1..];
        if |rest| == 1 {
          assert s[1..] == rest[0];
        } else {
          assert r[1..] == rest[1..];
          assert Join(rest, sep) == rest[0] + [sep] + Join(rest[1..], sep);
        }
      }
    }
  }

  /**
   * The characters Python's `str.split()` treats as whitespace (`str.isspace`):
   * tab to carriage return, the four separators U+001C to U+001F, space, NEL,
   * no-break space, and the Unicode spaces and line and paragraph separators.
   */
  predicate IsSpace(c: char)
  {
    var n := c as int;
    n == 0x20 || (0x09 <= n <= 0x0D) || (0x1C <= n <= 0x1F) || n == 0x85 || n == 0xA0
    || n == 0x1680 || (0x2000 <= n <= 0x200A) || n == 0x2028 || n == 0x2029
    || n == 0x202F || n == 0x205F || n == 0x3000
  }

  /**
   * The number of words `len(s.split())` finds: maximal runs of characters that
   * are not whitespace. `inWord` says whether the character before `s` belonged to a word.
   */
  function CountWordsFrom(s: string, inWord: bool): nat
    decreases |s|
  {
    if s == [] then 0
    else if IsSpace(s[0]) then CountWordsFrom(s[1..], false)
    else (if inWord then 0 else 1) + CountWordsFrom(s[1..], true)
  }

  function WordCount(s: string): nat
  {
    CountWordsFrom(s, false)
  }

  /** Every word needs at least one character, so there are no more words than characters. */
  lemma {:induction false} CountWordsBound(s: string, inWord: bool)
    ensures CountWordsFrom(s, inWord) <= |s|
    decreases |s|
  {
    if s != [] { CountWordsBound(s[1..], IsSpace(s[0]) == false); }
  }

  /** A string that is only whitespace has no word. */
  lemma {:induction false} BlankHasNoWords(s: string, inWord: bool)
    requires forall i :: 0 <= i < |s| ==> IsSpace(s[i])
    ensures CountWordsFrom(s, inWord) == 0
    decreases |s|
  {
    if s != [] { BlankHasNoWords(s[1..], false); }
  }

  /** Some keyword of `keywords` occurs in `text`. */
  predicate AnyIn(keywords: seq<string>, text: string)
  {
    exists k :: k in keywords && Contains(text, k)
  }

  /** One line of an ordered `if "a" in s or "b" in s: return r` chain. */
  datatype Rule<R> = Rule(keywords: seq<string>, result: R)

  /** The result of the first rule one of whose keywords occurs in `text`. */
  function FirstMatch<R>(rules: seq<Rule<R>>, text: string, default: R): R
  {
    if rules == [] then default
    else if AnyIn(rules[0].keywords, text) then rules[0].result
    else FirstMatch(rules[1..], text, default)
  }

  lemma FirstMatchCons<R>(r: Rule<R>, rs: seq<Rule<R>>, text: string, default: R)
    ensures FirstMatch([r] + rs, text, default)
         == if AnyIn(r.keywords, text) then r.result else FirstMatch(rs, text, default)
  {
    assert ([r] + rs)[1..] == rs;
  }

  lemma AnyInOne(a: string, text: string)
    ensures AnyIn([a], text) <==> Contains(text, a)
  {
    if Contains(text, a) { assert a in [a]; }
  }

  lemma AnyInTwo(a: string, b: string, text: string)
    ensures AnyIn([a, b], text) <==> Contains(text, a) || Contains(text, b)
  {
    if Contains(text, a) { assert a in [a, b]; }
    if Contains(text, b) { assert b in [a, b]; }
  }

  lemma AnyInThree(a: string, b: string, c: string, text: string)
    ensures AnyIn([a, b, c], text) <==> Contains(text, a) || Contains(text, b) || Contains(text, c)
  {
    if Contains(text, a) { assert a in [a, b, c]; }
    if Contains(text, b) { assert b in [a, b, c]; }
    if Contains(text, c) { assert c in [a, b, c]; }
  }

  /** The results of all rules that match `text`, in rule order. */
  function AllMatches<R>(rules: seq<Rule<R>>, text: string): (r: seq<R>)
    ensures |r| <= |rules|
  {
    if rules == [] then []
    else (if AnyIn(rules[0].keywords, text) then [rules[0].result] else [])
         + AllMatches(rules[1..], text)
  }
}
