/**
 The three JavaScript string operations the keyword lookups rely on:
 `String.prototype.includes`, `String.prototype.toLowerCase` and
 `String.prototype.trim`. Strings are sequences of Unicode scalar values.
 */
module Strings {

  /** The code points ECMAScript calls WhiteSpace or LineTerminator: exactly what `trim` removes. */
  predicate IsWhitespace(c: char) {
    c == '\t' || c == '\n' || c == '\U{000B}' || c == '\U{000C}' || c == '\r' || c == ' '
    || c == '\U{00A0}' || c == '\U{1680}' || ('\U{2000}' <= c <= '\U{200A}')
    || c == '\U{2028}' || c == '\U{2029}' || c == '\U{202F}' || c == '\U{205F}'
    || c == '\U{3000}' || c == '\U{FEFF}'
  }

  predicate IsAsciiUpper(c: char) {
    'A' <= c <= 'Z'
  }

  /** Every character of `s` from position `lo` up to, not including, `hi` is whitespace. */
  ghost predicate IsWhitespaceRun(s: string, lo: int, hi: int)
    requires 0 <= lo && hi <= |s|
  {
    forall i :: lo <= i < hi ==> IsWhitespace(s[i])
  }

  ghost predicate NoAsciiUpper(s: string) {
    forall i :: 0 <= i < |s| ==> !IsAsciiUpper(s[i])
  }

  /**
   `r` is `s` with every ASCII capital replaced by its small letter and every
   other character kept.
   */
  ghost predicate IsLowerCaseOf(r: string, s: string) {
    |r| == |s|
    && (forall i :: 0 <= i < |s| && !IsAsciiUpper(s[i]) ==> r[i] == s[i])
    && (forall i :: 0 <= i < |s| && IsAsciiUpper(s[i]) ==> r[i] as int - s[i] as int == 'a' as int - 'A' as int)
  }

  /** `key` occurs in `s` starting at position `i`. */
  ghost predicate OccursAt(s: string, key: string, i: int) {
    0 <= i <= |s| - |key| && s[i..i + |key|] == key
  }

  /** `key` occurs in `s` as a contiguous run: the meaning of `s.includes(key)`. */
  ghost predicate Contains(s: string, key: string) {
    exists i :: OccursAt(s, key, i)
  }

  /** A slice of a suffix is a slice of the whole sequence. */
  lemma SliceOfDrop<T>(s: seq<T>, d: nat, lo: nat, hi: nat)
    requires d <= |s| && lo <= hi <= |s| - d
    ensures s[d..][lo..hi] == s[lo + d..hi + d]
  {
  }

  /** A slice of a prefix is a slice of the whole sequence. */
  lemma SliceOfTake<T>(s: seq<T>, n: nat, lo: nat, hi: nat)
    requires lo <= hi <= n <= |s|
    ensures s[..n][lo..hi] == s[lo..hi]
  {
  }

  /** When `key` is not a prefix of `s`, an occurrence of `key` in `s` is one in the tail of `s`. */
  lemma ContainsStep(s: string, key: string)
    requires |key| <= |s| && !(key <= s)
    ensures Contains(s, key) <==> Contains(s[1..], key)
  {
    if Contains(s, key) {
      var i :| OccursAt(s, key, i);
      assert !OccursAt(s, key, 0);
      SliceOfDrop(s, 1, i - 1, i - 1 + |key|);
      assert OccursAt(s[1..], key, i - 1);
    }
    if Contains(s[1..], key) {
      var i :| OccursAt(s[1..], key, i);
      SliceOfDrop(s, 1, i, i + |key|);
      assert OccursAt(s, key, i + 1);
    }
  }

  /** The executable substring test, scanning `s` from the left. */
  function Includes(s: string, key: string): (b: bool)
    ensures b <==> Contains(s, key)
    decreases |s|
  {
    if |key| > |s| then
      false
    else if key <= s then
      assert OccursAt(s, key, 0);
      true
    else
      ContainsStep(s, key);
      Includes(s[1..], key)
  }

  function ToLowerChar(c: char): char {
    if IsAsciiUpper(c) then (c as int + 32) as char else c
  }

  /** `toLowerCase`, restricted to the ASCII letters A-Z (Arabic letters have no case). */
  function ToLowerCase(s: string): (r: string)
    ensures IsLowerCaseOf(r, s) && NoAsciiUpper(r)
  {
    seq(|s|, i requires 0 <= i < |s| => ToLowerChar(s[i]))
  }

  /** Lowercasing keeps every whitespace character and makes none: a string is blank iff its lowercase form is. */
  lemma LowerCaseKeepsBlank(s: string)
    ensures IsWhitespaceRun(ToLowerCase(s), 0, |s|) <==> IsWhitespaceRun(s, 0, |s|)
  {
    var lower := ToLowerCase(s);
    forall i | 0 <= i < |s|
      ensures IsWhitespace(lower[i]) <==> IsWhitespace(s[i])
    {
      if IsAsciiUpper(s[i]) {
        assert 'a' <= lower[i] <= 'z';
      }
    }
  }

  /** Drops the leading whitespace. */
  function TrimStart(s: string): (r: string)
    ensures |r| <= |s| && r == s[|s| - |r|..]
    ensures r != [] ==> !IsWhitespace(r[0])
    ensures IsWhitespaceRun(s, 0, |s| - |r|)
    decreases |s|
  {
    if s != [] && IsWhitespace(s[0]) then
      var r := TrimStart(s[1..]);
      forall i | 0 <= i < |s| - |r|
        ensures IsWhitespace(s[i])
      {
        if 0 < i {
          assert s[i] == s[1..][i - 1];
        }
      }
      r
    else
      s
  }

  /** Drops the trailing whitespace. */
  function TrimEnd(s: string): (r: string)
    ensures |r| <= |s| && r == s[..|r|]
    ensures r != [] ==> !IsWhitespace(r[|r| - 1])
    ensures IsWhitespaceRun(s, |r|, |s|)
    decreases |s|
  {
    if s != [] && IsWhitespace(s[|s| - 1]) then
      var r := TrimEnd(s[..|s| - 1]);
      forall i | |r| <= i < |s|
        ensures IsWhitespace(s[i])
      {
        if i < |s| - 1 {
          assert s[i] == s[..|s| - 1][i];
        }
      }
      r
    else
      s
  }

  /** A whitespace prefix followed by a whitespace suffix makes a whitespace string. */
  lemma WhitespaceRunsJoin(s: string, d: nat)
    requires d <= |s| && IsWhitespaceRun(s, 0, d) && IsWhitespaceRun(s[d..], 0, |s| - d)
    ensures IsWhitespaceRun(s, 0, |s|)
  {
    forall i | d <= i < |s|
      ensures IsWhitespace(s[i])
    {
      assert s[i] == s[d..][i - d];
    }
  }

  /** A whitespace run in a suffix is one in the whole sequence. */
  lemma WhitespaceRunOfDrop(s: string, d: nat, lo: nat)
    requires d <= |s| && lo <= |s| - d && IsWhitespaceRun(s[d..], lo, |s| - d)
    ensures IsWhitespaceRun(s, lo + d, |s|)
  {
    forall i | lo + d <= i < |s|
      ensures IsWhitespace(s[i])
    {
      assert s[i] == s[d..][i - d];
    }
  }

  /**
   What trimming the start and then the end leaves: `t` is `s` after its
   leading whitespace run, `r` is `t` before its trailing one, so `r` is the
   middle of `s` between two whitespace runs.
   */
  lemma TrimmedMiddle(s: string, t: string, r: string)
    requires |t| <= |s| && t == s[|s| - |t|..] && IsWhitespaceRun(s, 0, |s| - |t|)
    requires t != [] ==> !IsWhitespace(t[0])
    requires |r| <= |t| && r == t[..|r|] && IsWhitespaceRun(t, |r|, |t|)
    requires r != [] ==> !IsWhitespace(r[|r| - 1])
    ensures r != [] ==> !IsWhitespace(r[0])
    ensures forall i :: 0 <= i < |r| ==> r[i] == s[|s| - |t| + i]
    ensures IsWhitespaceRun(s, |s| - |t| + |r|, |s|)
    ensures r == [] <==> IsWhitespaceRun(s, 0, |s|)
  {
    var a := |s| - |t|;
    forall i | 0 <= i < |r|
      ensures r[i] == s[a + i]
    {
      assert r[i] == t[i] == s[a..][i];
    }
    WhitespaceRunOfDrop(s, a, |r|);
    if r == [] {
      WhitespaceRunsJoin(s, a);
    } else {
      assert r[0] == t[0];
      assert !IsWhitespace(s[a]);
    }
  }

  /**
   `trim`: `s` with exactly its leading and its trailing whitespace runs removed;
   empty exactly when `s` is all whitespace.
   */
  function Trim(s: string): (r: string)
    ensures r == [] <==> IsWhitespaceRun(s, 0, |s|)
    ensures r != [] ==> !IsWhitespace(r[0]) && !IsWhitespace(r[|r| - 1])
    ensures var a := |s| - |TrimStart(s)|;
      a + |r| <= |s| && (forall i :: 0 <= i < |r| ==> r[i] == s[a + i])
      && IsWhitespaceRun(s, 0, a) && IsWhitespaceRun(s, a + |r|, |s|)
  {
    var t := TrimStart(s);
    var r := TrimEnd(t);
    TrimmedMiddle(s, t, r);
    r
  }

  /** A string is all whitespace iff its first character is and the rest is. */
  lemma WhitespaceRunStep(s: string)
    requires s != []
    ensures IsWhitespaceRun(s, 0, |s|) <==> IsWhitespace(s[0]) && IsWhitespaceRun(s[1..], 0, |s| - 1)
  {
    if IsWhitespace(s[0]) && IsWhitespaceRun(s[1..], 0, |s| - 1) {
      forall i | 1 <= i < |s|
        ensures IsWhitespace(s[i])
      {
        assert s[i] == s[1..][i - 1];
      }
    }
  }

  /** The string holds nothing but whitespace, tested character by character. */
  function IsBlank(s: string): (b: bool)
    ensures b <==> IsWhitespaceRun(s, 0, |s|)
    decreases |s|
  {
    if s == [] then
      true
    else
      WhitespaceRunStep(s);
      IsWhitespace(s[0]) && IsBlank(s[1..])
  }

  /** `!s.trim()`: a string is blank exactly when trimming leaves nothing. */
  lemma BlankIffTrimmedEmpty(s: string)
    ensures IsBlank(s) <==> Trim(s) == []
  {
  }

  /** Dropping a whitespace-only prefix keeps exactly the occurrences of a key that starts with a non-whitespace character. */
  lemma DropWhitespacePrefixKeepsKey(s: string, d: nat, key: string)
    requires d <= |s| && IsWhitespaceRun(s, 0, d)
    requires key != [] && !IsWhitespace(key[0])
    ensures Contains(s[d..], key) <==> Contains(s, key)
  {
    var r := s[d..];
    if Contains(r, key) {
      var i :| OccursAt(r, key, i);
      SliceOfDrop(s, d, i, i + |key|);
      assert OccursAt(s, key, i + d);
    }
    if Contains(s, key) {
      var i :| OccursAt(s, key, i);
      assert s[i] == s[i..i + |key|][0] == key[0];
      assert !(i < d);
      SliceOfDrop(s, d, i - d, i - d + |key|);
      assert OccursAt(r, key, i - d);
    }
  }

  /** A key that starts with a non-whitespace character occurs in `s` iff it occurs once leading whitespace is gone. */
  lemma TrimStartKeepsKey(s: string, key: string)
    requires key != [] && !IsWhitespace(key[0])
    ensures Contains(TrimStart(s), key) <==> Contains(s, key)
  {
    var r := TrimStart(s);
    DropWhitespacePrefixKeepsKey(s, |s| - |r|, key);
  }

  /** A key that ends with a non-whitespace character occurs in `s` iff it occurs once trailing whitespace is gone. */
  lemma TrimEndKeepsKey(s: string, key: string)
    requires key != [] && !IsWhitespace(key[|key| - 1])
    ensures Contains(TrimEnd(s), key) <==> Contains(s, key)
  {
    var r := TrimEnd(s);
    if Contains(r, key) {
      var i :| OccursAt(r, key, i);
      SliceOfTake(s, |r|, i, i + |key|);
      assert OccursAt(s, key, i);
    }
    if Contains(s, key) {
      var i :| OccursAt(s, key, i);
      assert s[i + |key| - 1] == s[i..i + |key|][|key| - 1] == key[|key| - 1];
      assert i + |key| <= |r|;
      SliceOfTake(s, |r|, i, i + |key|);
      assert OccursAt(r, key, i);
    }
  }

  /** Trimming never changes whether a key without surrounding whitespace occurs. */
  lemma {:induction false} TrimKeepsKey(s: string, key: string)
    requires key != [] && !IsWhitespace(key[0]) && !IsWhitespace(key[|key| - 1])
    ensures Contains(Trim(s), key) <==> Contains(s, key)
  {
    TrimStartKeepsKey(s, key);
    TrimEndKeepsKey(TrimStart(s), key);
  }

  /** Non-empty, without surrounding whitespace and without ASCII capitals. */
  ghost predicate IsPlain(s: string) {
    s != [] && !IsWhitespace(s[0]) && !IsWhitespace(s[|s| - 1]) && NoAsciiUpper(s)
  }

  /** A plain message is its own lowercased, trimmed form. */
  lemma PlainMessageIsNormal(s: string)
    requires IsPlain(s)
    ensures Trim(ToLowerCase(s)) == s
  {
    assert ToLowerCase(s) == s;
    assert TrimStart(s) == s;
    assert TrimEnd(s) == s;
  }

  /** A key occurs right after any prefix it is written behind. */
  lemma OccursAfterPrefix(prefix: string, key: string, suffix: string)
    ensures OccursAt(prefix + key + suffix, key, |prefix|)
  {
    assert (prefix + key + suffix)[|prefix|..|prefix| + |key|] == key;
  }

  /** A key with a character that does not appear in `s` does not occur in `s`. */
  lemma AbsentCharNotContained(s: string, key: string, j: nat)
    requires j < |key| && key[j] !in s
    ensures !Contains(s, key)
  {
    forall i | 0 <= i <= |s| - |key|
      ensures !OccursAt(s, key, i)
    {
      assert s[i..i + |key|][j] == s[i + j];
    }
  }
}
