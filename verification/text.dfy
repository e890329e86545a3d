/**
  Character classes and string transforms that the page's regular expressions
  and string methods rely on, written as plain predicates over `string`.
 */
module Text {

  /** JavaScript's `\d`: the ASCII digits only. */
  predicate IsDigit(c: char) { '0' <= c <= '9' }

  /** The regex class `[A-Za-z]`. */
  predicate IsLetter(c: char) { 'A' <= c <= 'Z' || 'a' <= c <= 'z' }

  /**
    JavaScript's `\s`: the ECMAScript WhiteSpace and LineTerminator characters
    (tab, line feed, vertical tab, form feed, carriage return, space, no-break
    space, ogham space, the U+2000..U+200A spaces, line and paragraph
    separators, narrow no-break space, medium mathematical space, ideographic
    space and the byte order mark).
   */
  predicate IsWhitespace(c: char)
  {
    || c == '\t' || c == '\n' || c == '\U{000B}' || c == '\U{000C}' || c == '\r'
    || c == ' ' || c == '\U{00A0}' || c == '\U{1680}'
    || ('\U{2000}' <= c <= '\U{200A}')
    || c == '\U{2028}' || c == '\U{2029}' || c == '\U{202F}' || c == '\U{205F}'
    || c == '\U{3000}' || c == '\U{FEFF}'
  }

  predicate AllDigits(s: string)
  {
    forall k :: 0 <= k < |s| ==> IsDigit(s[k])
  }

  predicate NoWhitespace(s: string)
  {
    forall k :: 0 <= k < |s| ==> !IsWhitespace(s[k])
  }

  /** `s.trim()` is non-empty exactly when some character of `s` is not whitespace. */
  predicate TrimNonEmpty(s: string)
  {
    exists k :: 0 <= k < |s| && !IsWhitespace(s[k])
  }

  /** Lower-casing of one character: A..Z map to a..z, everything else is kept. */
  function LowerChar(c: char): char
  {
    if 'A' <= c <= 'Z' then (c as int + 32) as char else c
  }

  /** Upper-casing of one character: a..z map to A..Z, everything else is kept. */
  function UpperChar(c: char): char
  {
    if 'a' <= c <= 'z' then (c as int - 32) as char else c
  }

  /** `s.toLowerCase()`, character by character. */
  function ToLower(s: string): (r: string)
    ensures |r| == |s|
    ensures IsLowerCase(r)
    ensures forall k :: 0 <= k < |s| && !('A' <= s[k] <= 'Z') ==> r[k] == s[k]
  {
    seq(|s|, k requires 0 <= k < |s| => LowerChar(s[k]))
  }

  /** No character of `t` is an upper-case ASCII letter. */
  predicate IsLowerCase(t: string)
  {
    forall k :: 0 <= k < |t| ==> !('A' <= t[k] <= 'Z')
  }

  /** A character folds to a lower-case `d` exactly when it is `d` or its upper-case form. */
  lemma LowerCharMatches(c: char, d: char)
    requires !('A' <= d <= 'Z')
    ensures LowerChar(c) == d <==> c == d || c == UpperChar(d)
  {
  }

  /**
    Case-insensitive comparison: lower-casing `s` yields a lower-case `t`
    exactly when `s` spells `t` with any mix of upper and lower case.
   */
  lemma ToLowerMatches(s: string, t: string)
    requires IsLowerCase(t)
    ensures ToLower(s) == t <==>
      |s| == |t| && forall k :: 0 <= k < |s| ==> s[k] == t[k] || s[k] == UpperChar(t[k])
  {
    if |s| == |t| {
      forall k | 0 <= k < |s|
        ensures LowerChar(s[k]) == t[k] <==> s[k] == t[k] || s[k] == UpperChar(t[k])
      {
        LowerCharMatches(s[k], t[k]);
      }
      if ToLower(s) != t {
        var k :| 0 <= k < |s| && ToLower(s)[k] != t[k];
        assert LowerChar(s[k]) != t[k];
      }
    }
  }

  /** Lower-casing twice is lower-casing once. */
  lemma ToLowerIdempotent(s: string)
    ensures ToLower(ToLower(s)) == ToLower(s)
    ensures IsLowerCase(ToLower(s))
  {
  }

  /** `s.replace(/\s/g, '')`: every whitespace character removed, the rest kept in order. */
  function StripWhitespace(s: string): (r: string)
    ensures NoWhitespace(r)
    ensures |r| <= |s|
  {
    if s == [] then []
    else if IsWhitespace(s[0]) then StripWhitespace(s[1..])
    else [s[0]] + StripWhitespace(s[1..])
  }

  /** Stripping works piecewise: it distributes over concatenation. */
  lemma {:induction false} StripWhitespaceAppend(a: string, b: string)
    ensures StripWhitespace(a + b) == StripWhitespace(a) + StripWhitespace(b)
  {
    if a == [] {
      assert a + b == b;
    } else {
      assert (a + b)[1..] == a[1..] + b;
      StripWhitespaceAppend(a[1..], b);
    }
  }

  /** A string without whitespace is left as it is, and only such a string is. */
  lemma {:induction false} StripWhitespaceFixed(s: string)
    ensures StripWhitespace(s) == s <==> NoWhitespace(s)
  {
    if s != [] {
      StripWhitespaceFixed(s[1..]);
      if IsWhitespace(s[0]) {
        assert |StripWhitespace(s)| < |s| by {
          assert StripWhitespace(s) == StripWhitespace(s[1..]);
        }
      }
    }
  }

  /** Stripping keeps every non-whitespace character, as many times as it occurs. */
  lemma {:induction false} StripWhitespaceKeeps(s: string, c: char)
    requires !IsWhitespace(c)
    ensures multiset(StripWhitespace(s))[c] == multiset(s)[c]
  {
    if s != [] {
      StripWhitespaceKeeps(s[1..], c);
      assert s == [s[0]] + s[1..];
    }
  }
}
