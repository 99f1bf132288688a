/**
 * The parts of Kotlin's string library that the queue logic relies on:
 * `isBlank`, `trim` and `contains(other, ignoreCase = true)`.
 */
module Text {
  import opened Wrappers

  /**
   * Kotlin's `Char.isWhitespace()` on the JVM: `Character.isWhitespace` or
   * `Character.isSpaceChar`, i.e. the ASCII controls TAB..CR and FS..US, and
   * every Unicode space, line or paragraph separator.
   */
  predicate IsWhitespace(c: char) {
    || c == ' '
    || ('\t' <= c <= '\r')
    || ('\U{1C}' <= c <= '\U{1F}')
    || c == '\U{A0}'
    || c == '\U{1680}'
    || ('\U{2000}' <= c <= '\U{200A}')
    || c == '\U{2028}'
    || c == '\U{2029}'
    || c == '\U{202F}'
    || c == '\U{205F}'
    || c == '\U{3000}'
  }

  /** `isBlank()`: empty, or whitespace only. */
  predicate IsBlank(s: string) {
    forall i :: 0 <= i < |s| ==> IsWhitespace(s[i])
  }

  /** `isNullOrBlank()`. */
  predicate IsNullOrBlank(s: Option<string>) {
    s.None? || IsBlank(s.value)
  }

  /** Drops the leading whitespace: the result is the longest suffix that does not start with whitespace. */
  function TrimStart(s: string): (r: string)
    ensures |r| <= |s| && r == s[|s| - |r|..]
    ensures forall i :: 0 <= i < |s| - |r| ==> IsWhitespace(s[i])
    ensures |r| > 0 ==> !IsWhitespace(r[0])
  {
    if |s| > 0 && IsWhitespace(s[0]) then
      var r := TrimStart(s[1..]);
      assert s[1..][|s| - 1 - |r|..] == s[|s| - |r|..];
      r
    else s
  }

  /** Drops the trailing whitespace: the result is the longest prefix that does not end with whitespace. */
  function TrimEnd(s: string): (r: string)
    ensures |r| <= |s| && r == s[..|r|]
    ensures forall i :: |r| <= i < |s| ==> IsWhitespace(s[i])
    ensures |r| > 0 ==> !IsWhitespace(r[|r| - 1])
  {
    if |s| > 0 && IsWhitespace(s[|s| - 1]) then
      var r := TrimEnd(s[..|s| - 1]);
      assert s[..|s| - 1][..|r|] == s[..|r|];
      r
    else s
  }

  /** `r` is the slice of `s` at offset `a`, and everything of `s` outside that slice is whitespace. */
  predicate TrimmedAt(s: string, a: int, r: string) {
    && 0 <= a <= |s| - |r|
    && r == s[a..a + |r|]
    && (forall i :: 0 <= i < a ==> IsWhitespace(s[i]))
    && (forall i :: a + |r| <= i < |s| ==> IsWhitespace(s[i]))
  }

  /**
   * `trim()`: the contiguous slice of `s` left after removing whitespace at both
   * ends; it is empty exactly when `s` is blank, and otherwise starts and ends
   * with a character that is not whitespace.
   */
  function Trim(s: string): (r: string)
    ensures IsBlank(s) <==> r == []
    ensures |r| > 0 ==> !IsWhitespace(r[0]) && !IsWhitespace(r[|r| - 1])
    ensures exists a :: TrimmedAt(s, a, r)
  {
    var t := TrimStart(s);
    var r := TrimEnd(t);
    assert TrimmedAt(s, |s| - |t|, r);
    r
  }

  /** Trimming keeps blankness: a string is blank exactly when its trimmed form is. */
  lemma TrimKeepsBlankness(s: string)
    ensures IsBlank(Trim(s)) <==> IsBlank(s)
  {
    var r := Trim(s);
    if !IsBlank(s) {
      assert r != [] && !IsWhitespace(r[0]);
    }
  }

  /** Trimming twice is trimming once. */
  lemma TrimIdempotent(s: string)
    ensures Trim(Trim(s)) == Trim(s)
  {
    var r := Trim(s);
    assert TrimStart(r) == r;
    assert TrimEnd(r) == r;
  }

  /** ASCII `uppercaseChar()`. */
  function UppercaseChar(c: char): char {
    if 'a' <= c <= 'z' then (c as int - 32) as char else c
  }

  /** ASCII `lowercaseChar()`. */
  function LowercaseChar(c: char): char {
    if 'A' <= c <= 'Z' then (c as int + 32) as char else c
  }

  /** `Char.equals(other, ignoreCase = true)`: equal, equal after upper-casing, or after upper- then lower-casing. */
  predicate CharEqualsIgnoreCase(a: char, b: char) {
    || a == b
    || UppercaseChar(a) == UppercaseChar(b)
    || LowercaseChar(UppercaseChar(a)) == LowercaseChar(UppercaseChar(b))
  }

  /** `other` occurs in `text` at index `start`, character by character, ignoring case. */
  predicate RegionMatchesIgnoreCase(text: string, start: nat, other: string) {
    && start + |other| <= |text|
    && forall k :: 0 <= k < |other| ==> CharEqualsIgnoreCase(text[start + k], other[k])
  }

  /** `text.startsWith(prefix, ignoreCase = true)`, one character at a time. */
  predicate StartsWithIgnoreCase(text: string, prefix: string) {
    || |prefix| == 0
    || (&& |text| > 0
        && CharEqualsIgnoreCase(text[0], prefix[0])
        && StartsWithIgnoreCase(text[1..], prefix[1..]))
  }

  /** `text.contains(other, ignoreCase = true)`: try every start index from the left. */
  predicate ContainsIgnoreCase(text: string, other: string) {
    || StartsWithIgnoreCase(text, other)
    || (|text| > 0 && ContainsIgnoreCase(text[1..], other))
  }

  lemma {:induction false} StartsWithIgnoreCaseIff(text: string, prefix: string)
    ensures StartsWithIgnoreCase(text, prefix) <==> RegionMatchesIgnoreCase(text, 0, prefix)
  {
    if |prefix| > 0 && |text| > 0 {
      StartsWithIgnoreCaseIff(text[1..], prefix[1..]);
      if RegionMatchesIgnoreCase(text, 0, prefix) {
        assert forall k :: 0 <= k < |prefix| - 1 ==> text[1..][k] == text[k + 1] && prefix[1..][k] == prefix[k + 1];
      }
    }
  }

  /**
   * The search finds `other` exactly when some start index matches it, so
   * `ContainsIgnoreCase` is Kotlin's `indexOf(other, ignoreCase = true) >= 0`.
   */
  lemma {:induction false} ContainsIgnoreCaseIff(text: string, other: string)
    ensures ContainsIgnoreCase(text, other) <==>
            exists i :: 0 <= i <= |text| && RegionMatchesIgnoreCase(text, i, other)
  {
    StartsWithIgnoreCaseIff(text, other);
    if |text| > 0 {
      ContainsIgnoreCaseIff(text[1..], other);
      if i :| 0 <= i <= |text| && RegionMatchesIgnoreCase(text, i, other) {
        if i > 0 {
          assert RegionMatchesIgnoreCase(text[1..], i - 1, other) by {
            forall k | 0 <= k < |other| ensures CharEqualsIgnoreCase(text[1..][i - 1 + k], other[k]) { }
          }
        }
      }
      if j :| 0 <= j <= |text[1..]| && RegionMatchesIgnoreCase(text[1..], j, other) {
        assert RegionMatchesIgnoreCase(text, j + 1, other) by {
          forall k | 0 <= k < |other| ensures CharEqualsIgnoreCase(text[j + 1 + k], other[k]) { }
        }
      }
    } else {
      if i :| 0 <= i <= |text| && RegionMatchesIgnoreCase(text, i, other) {
        assert i == 0;
      }
    }
  }

  /** ASCII `uppercase()` of a whole string. */
  function Uppercase(s: string): (r: string)
    ensures |r| == |s|
  {
    seq(|s|, i requires 0 <= i < |s| => UppercaseChar(s[i]))
  }

  lemma CharEqualsIgnoreCaseOfUppercase(a: char, b: char)
    ensures CharEqualsIgnoreCase(UppercaseChar(a), b) <==> CharEqualsIgnoreCase(a, b)
  {
  }

  /** Upper-casing the searched text never changes whether `other` is found in it. */
  lemma {:induction false} ContainsIgnoreCaseOfUppercase(text: string, other: string)
    ensures ContainsIgnoreCase(Uppercase(text), other) <==> ContainsIgnoreCase(text, other)
  {
    ContainsIgnoreCaseIff(text, other);
    ContainsIgnoreCaseIff(Uppercase(text), other);
    forall i | 0 <= i <= |text|
      ensures RegionMatchesIgnoreCase(Uppercase(text), i, other) <==> RegionMatchesIgnoreCase(text, i, other)
    {
      forall k | 0 <= k < |other| && i + k < |text|
        ensures CharEqualsIgnoreCase(Uppercase(text)[i + k], other[k]) <==> CharEqualsIgnoreCase(text[i + k], other[k])
      {
        CharEqualsIgnoreCaseOfUppercase(text[i + k], other[k]);
      }
    }
  }
}
