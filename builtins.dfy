/** The Python built-ins the core leans on: `str.lower`, the `in` operator on strings,
    `str.split()` without arguments, and the exception objects an `except` clause sees. */
module Builtins {

  /** An exception as `except Exception as e` sees it: `type(e).__name__`, `str(e)`, and
      whether `isinstance(e, TypeError)` holds (a subclass of TypeError has another name). */
  datatype PyError = PyError(typeName: string, message: string, isTypeError: bool)

  /** `c.lower()` on one character, for the ASCII letters. */
  function LowerChar(c: char): char {
    if 'A' <= c <= 'Z' then (c as int + 32) as char else c
  }

  predicate IsUpper(c: char) {
    'A' <= c <= 'Z'
  }

  /** `s.lower()`. */
  function Lower(s: string): (r: string)
    ensures |r| == |s|
    ensures forall i :: 0 <= i < |r| ==> !IsUpper(r[i])
    ensures forall i :: 0 <= i < |r| ==> (r[i] == s[i] || (IsUpper(s[i]) && r[i] as int == s[i] as int + 32))
  {
    seq(|s|, i requires 0 <= i < |s| => LowerChar(s[i]))
  }

  /** Lower-casing twice is lower-casing once. */
  lemma LowerIdempotent(s: string)
    ensures Lower(Lower(s)) == Lower(s)
  {
    var l := Lower(s);
    assert forall i :: 0 <= i < |l| ==> LowerChar(l[i]) == l[i];
  }

  /** `needle` occurs in `haystack` starting at position `i`. */
  predicate OccursAt(haystack: string, needle: string, i: int) {
    0 <= i && i + |needle| <= |haystack| && haystack[i..i + |needle|] == needle
  }

  /** `needle in haystack` for two strings: `needle` occurs as a contiguous substring. */
  predicate Contains(haystack: string, needle: string) {
    exists i | 0 <= i <= |haystack| :: OccursAt(haystack, needle, i)
  }

  /** A substring of a substring is a substring. */
  lemma ContainsTransitive(s: string, mid: string, needle: string)
    requires Contains(s, mid) && Contains(mid, needle)
    ensures Contains(s, needle)
  {
    var i :| 0 <= i <= |s| && OccursAt(s, mid, i);
    var j :| 0 <= j <= |mid| && OccursAt(mid, needle, j);
    forall k | 0 <= k < |needle|
      ensures s[i + j + k] == needle[k]
    {
      assert s[i..i + |mid|][j + k] == mid[j + k];
      assert mid[j..j + |needle|][k] == needle[k];
    }
    assert s[i + j..i + j + |needle|] == needle;
    assert OccursAt(s, needle, i + j);
  }

  /** Lower-casing keeps every occurrence: `needle in s` implies
      `needle.lower() in s.lower()`. */
  lemma ContainsLower(s: string, needle: string)
    requires Contains(s, needle)
    ensures Contains(Lower(s), Lower(needle))
  {
    var i :| 0 <= i <= |s| && OccursAt(s, needle, i);
    assert Lower(s)[i..i + |needle|] == Lower(needle);
    assert OccursAt(Lower(s), Lower(needle), i);
  }

  /** A needle holding a character the haystack lacks cannot occur in it. */
  lemma MissingCharNotContained(haystack: string, needle: string, c: char)
    requires c in needle && c !in haystack
    ensures !Contains(haystack, needle)
  {
    var k :| 0 <= k < |needle| && needle[k] == c;
    forall i | 0 <= i <= |haystack|
      ensures !OccursAt(haystack, needle, i)
    {
      if i + |needle| <= |haystack| {
        assert haystack[i + k] in haystack;
        assert haystack[i..i + |needle|][k] == haystack[i + k] != needle[k];
      }
    }
  }

  /** A string contains each of its slices. */
  lemma ContainsSlice(s: string, i: nat, j: nat)
    requires i <= j <= |s|
    ensures Contains(s, s[i..j])
  {
    assert OccursAt(s, s[i..j], i);
  }

  /** `str.isspace()` on one character: the characters that `str.split()` without
      arguments treats as separators. */
  predicate IsSpace(c: char) {
    var n := c as int;
    || 9 <= n <= 13 || 28 <= n <= 32 || n == 0x85 || n == 0xA0 || n == 0x1680
    || 0x2000 <= n <= 0x200A || n == 0x2028 || n == 0x2029 || n == 0x202F
    || n == 0x205F || n == 0x3000
  }

  /** Number of words that start in `s` when the character before `s` was inside a word
      (`inWord`) or not. */
  function WordStarts(s: string, inWord: bool): nat
    decreases |s|
  {
    if s == [] then 0
    else if IsSpace(s[0]) then WordStarts(s[1..], false)
    else (if inWord then 0 else 1) + WordStarts(s[1..], true)
  }

  /** `len(s.split())`: the number of maximal runs of non-space characters. */
  function WordCount(s: string): (n: nat)
    ensures n <= |s|
  {
    WordStartsInWord(s);
    WordStarts(s, false)
  }

  /** Inside a run of non-space characters no new word starts. */
  lemma {:induction false} WordStartsWithinRun(w: string)
    requires forall i :: 0 <= i < |w| ==> !IsSpace(w[i])
    ensures WordStarts(w, true) == 0
    decreases |w|
  {
    if w != [] {
      assert forall i :: 0 <= i < |w[1..]| ==> w[1..][i] == w[i + 1];
      WordStartsWithinRun(w[1..]);
    }
  }

  /** A non-empty run of non-space characters is exactly one word. */
  lemma WordCountOneWord(w: string)
    requires w != [] && forall i :: 0 <= i < |w| ==> !IsSpace(w[i])
    ensures WordCount(w) == 1
  {
    assert forall i :: 0 <= i < |w[1..]| ==> w[1..][i] == w[i + 1];
    WordStartsWithinRun(w[1..]);
  }

  /** `s.split()` is empty exactly when `s` is all whitespace, and has at most one word
      per character. */
  lemma {:induction false} WordCountZero(s: string)
    ensures WordCount(s) <= |s|
    ensures WordCount(s) == 0 <==> forall i :: 0 <= i < |s| ==> IsSpace(s[i])
    decreases |s|
  {
    if s != [] {
      WordCountZero(s[1..]);
      WordStartsInWord(s[1..]);
      assert forall i :: 1 <= i < |s| ==> s[i] == s[1..][i - 1];
    }
  }

  /** Starting inside a word can only hide the first word. */
  lemma {:induction false} WordStartsInWord(s: string)
    ensures WordStarts(s, true) <= WordStarts(s, false) <= WordStarts(s, true) + 1
    ensures WordStarts(s, true) <= |s| && WordStarts(s, false) <= |s|
    decreases |s|
  {
    if s != [] {
      WordStartsInWord(s[1..]);
    }
  }

  lemma {:induction false} WordStartsAppend(a: string, sep: char, b: string, inWord: bool)
    requires IsSpace(sep)
    ensures WordStarts(a + [sep] + b, inWord) == WordStarts(a, inWord) + WordStarts(b, false)
    decreases |a|
  {
    if a == [] {
      assert a + [sep] + b == [sep] + b;
      assert ([sep] + b)[1..] == b;
    } else {
      assert (a + [sep] + b)[1..] == a[1..] + [sep] + b;
      WordStartsAppend(a[1..], sep, b, !IsSpace(a[0]));
    }
  }

  /** Joining two texts with a separator adds their word counts: `str.split()` never
      merges words across whitespace. */
  lemma WordCountJoin(a: string, sep: char, b: string)
    requires IsSpace(sep)
    ensures WordCount(a + [sep] + b) == WordCount(a) + WordCount(b)
  {
    WordStartsAppend(a, sep, b, false);
  }
}
