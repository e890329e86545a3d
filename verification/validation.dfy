/**
  The checkout form's field checks. Each regular expression of the page is
  written as a predicate over characters.
 */
module Validation {
  import opened Text

  /** Every character of s[lo..hi] is a non-whitespace character. */
  predicate NonSpaceRun(s: string, lo: int, hi: int)
    requires 0 <= lo <= hi <= |s|
  {
    forall k :: lo <= k < hi ==> !IsWhitespace(s[k])
  }

  /**
    The literal meaning of `/\S+@\S+\.\S+/.test(s)`: somewhere in `s` there is
    a run of non-whitespace characters s[p..q] that reads X '@' Y '.' Z with
    X = s[p..i], Y = s[i+1..j] and Z = s[j+1..q] all non-empty.
   */
  ghost predicate EmailRegexMatches(s: string)
  {
    exists p, i, j, q :: 0 <= p < i && i + 1 < j && j + 1 < q <= |s|
      && s[i] == '@' && s[j] == '.' && NonSpaceRun(s, p, q)
  }

  /**
    The search as the model performs it: an '@' with a non-whitespace character
    before it, then at least one non-whitespace character, a '.', and one more
    non-whitespace character.
   */
  predicate LooksLikeEmail(s: string)
    ensures LooksLikeEmail(s) ==> |s| >= 5 && '@' in s && '.' in s
  {
    exists i, j :: 1 <= i && i + 1 < j && j + 1 < |s|
      && s[i] == '@' && s[j] == '.' && NonSpaceRun(s, i - 1, j + 2)
  }

  /** The model's search finds a match exactly when the regular expression does. */
  lemma LooksLikeEmailIsRegex(s: string)
    ensures LooksLikeEmail(s) <==> EmailRegexMatches(s)
  {
    if LooksLikeEmail(s) {
      var i, j :| 1 <= i && i + 1 < j && j + 1 < |s|
        && s[i] == '@' && s[j] == '.' && NonSpaceRun(s, i - 1, j + 2);
      assert 0 <= i - 1 < i && j + 1 < j + 2 <= |s|;
    }
    if EmailRegexMatches(s) {
      var p, i, j, q :| 0 <= p < i && i + 1 < j && j + 1 < q <= |s|
        && s[i] == '@' && s[j] == '.' && NonSpaceRun(s, p, q);
      assert NonSpaceRun(s, i - 1, j + 2);
    }
  }

  /** The regular expression is unanchored: text around an address does not matter. */
  lemma LooksLikeEmailUnanchored(pre: string, s: string, post: string)
    requires LooksLikeEmail(s)
    ensures LooksLikeEmail(pre + s + post)
  {
    var i, j :| 1 <= i && i + 1 < j && j + 1 < |s|
      && s[i] == '@' && s[j] == '.' && NonSpaceRun(s, i - 1, j + 2);
    var t := pre + s + post;
    var n := |pre|;
    assert t[n + i] == '@' && t[n + j] == '.';
    assert NonSpaceRun(t, n + i - 1, n + j + 2) by {
      forall k | n + i - 1 <= k < n + j + 2 ensures !IsWhitespace(t[k]) {
        assert t[k] == s[k - n];
      }
    }
  }

  /** "a@b.c" and "jane@example.com" pass. */
  lemma EmailAccepted()
    ensures LooksLikeEmail("a@b.c")
    ensures LooksLikeEmail("jane@example.com")
  {
    assert "a@b.c"[1] == '@' && "a@b.c"[3] == '.';
    assert NonSpaceRun("a@b.c", 0, 5);
    var e := "jane@example.com";
    assert e[4] == '@' && e[12] == '.';
    assert NonSpaceRun(e, 3, 14);
  }

  /** "jane@example" has no dot after the '@', and "jane @x.ca" has a space right before it. */
  lemma EmailRefused()
    ensures !LooksLikeEmail("jane@example")
    ensures !LooksLikeEmail("jane @x.ca")
  {
    var e := "jane @x.ca";
    forall i, j | 1 <= i && i + 1 < j && j + 1 < |e| && e[i] == '@' && e[j] == '.'
      ensures !NonSpaceRun(e, i - 1, j + 2)
    {
      assert i == 5;
      assert IsWhitespace(e[4]);
    }
  }

  /** One of the two separator characters the postal pattern allows between its halves. */
  predicate IsPostalSeparator(c: char) { c == ' ' || c == '-' }

  /**
    `/^[A-Za-z]\d[A-Za-z][ -]?\d[A-Za-z]\d$/`: letter, digit, letter, an
    optional space or hyphen, digit, letter, digit, and nothing else.
   */
  predicate PostalCodeOk(s: string)
    ensures PostalCodeOk(s) ==>
      forall k :: 0 <= k < |s| ==> IsLetter(s[k]) || IsDigit(s[k]) || IsPostalSeparator(s[k])
    ensures PostalCodeOk(s) ==>
      forall k :: 0 <= k < |s| && IsPostalSeparator(s[k]) ==> k == 3 && |s| == 7
  {
    (|s| == 6 || |s| == 7) &&
    var gap := |s| - 6;
    IsLetter(s[0]) && IsDigit(s[1]) && IsLetter(s[2])
    && (gap == 1 ==> IsPostalSeparator(s[3]))
    && IsDigit(s[3 + gap]) && IsLetter(s[4 + gap]) && IsDigit(s[5 + gap])
  }

  /**
    A seven-character postal code is accepted exactly when it is an accepted
    six-character code with a space or hyphen inserted in the middle.
   */
  lemma PostalCodeSeparator(c: string, sep: char)
    requires |c| == 6
    ensures PostalCodeOk(c[..3] + [sep] + c[3..]) <==> PostalCodeOk(c) && IsPostalSeparator(sep)
  {
    var s := c[..3] + [sep] + c[3..];
    assert s[0] == c[0] && s[1] == c[1] && s[2] == c[2] && s[3] == sep;
    assert s[4] == c[3] && s[5] == c[4] && s[6] == c[5];
  }

  /** Postal codes in upper or lower case, with or without separator, as the pattern allows. */
  lemma PostalCodeExamples()
    ensures PostalCodeOk("M5V 2T6") && PostalCodeOk("m5v2t6") && PostalCodeOk("M5V-2T6")
    ensures !PostalCodeOk("M5V  2T6") && !PostalCodeOk("12345") && !PostalCodeOk("M5V_2T6")
  {
  }

  /** `/^\d{16}$/` applied to the card number after `replace(/\s/g, '')`. */
  predicate CardNumberOk(s: string)
    ensures CardNumberOk(s) ==> |s| >= 16
  {
    var digits := StripWhitespace(s);
    |digits| == 16 && AllDigits(digits)
  }

  /** `/^\d{2}\/\d{2}$/`: two digits, a slash, two digits; the month is not range-checked. */
  predicate ExpiryOk(s: string)
    ensures ExpiryOk(s) ==> NoWhitespace(s)
  {
    |s| == 5 && IsDigit(s[0]) && IsDigit(s[1]) && s[2] == '/' && IsDigit(s[3]) && IsDigit(s[4])
  }

  /** `/^\d{3,4}$/`: three or four digits. */
  predicate CvvOk(s: string)
    ensures CvvOk(s) ==> NoWhitespace(s)
  {
    3 <= |s| <= 4 && AllDigits(s)
  }

  /** A string made of whitespace only strips to nothing. */
  lemma {:induction false} StripAllWhitespace(w: string)
    requires forall k :: 0 <= k < |w| ==> IsWhitespace(w[k])
    ensures StripWhitespace(w) == []
  {
    if w != [] {
      StripAllWhitespace(w[1..]);
    }
  }

  /** Whitespace inserted anywhere in a card number does not change the verdict. */
  lemma CardNumberIgnoresWhitespace(a: string, w: string, b: string)
    requires forall k :: 0 <= k < |w| ==> IsWhitespace(w[k])
    ensures CardNumberOk(a + w + b) <==> CardNumberOk(a + b)
  {
    StripAllWhitespace(w);
    StripWhitespaceAppend(a + w, b);
    StripWhitespaceAppend(a, w);
    StripWhitespaceAppend(a, b);
    assert StripWhitespace(a) + [] == StripWhitespace(a);
  }

  /** Without whitespace, a card number passes exactly when it is sixteen digits. */
  lemma CardNumberWithoutWhitespace(s: string)
    requires NoWhitespace(s)
    ensures CardNumberOk(s) <==> |s| == 16 && AllDigits(s)
  {
    StripWhitespaceFixed(s);
  }

  /** Any sixteen digits pass, such as "4111111111111111". */
  lemma SixteenDigitsPass(s: string)
    requires |s| == 16 && AllDigits(s)
    ensures CardNumberOk(s)
  {
    assert NoWhitespace(s);
    CardNumberWithoutWhitespace(s);
  }

  lemma CardNumberAccepted()
    ensures CardNumberOk("4111111111111111")
  {
    SixteenDigitsPass("4111111111111111");
  }

  /** Four groups of four digits separated by single spaces pass. */
  lemma CardNumberGroupedByFours(a: string, b: string, c: string, d: string)
    requires |a| == 4 && |b| == 4 && |c| == 4 && |d| == 4
    requires AllDigits(a) && AllDigits(b) && AllDigits(c) && AllDigits(d)
    ensures CardNumberOk(a + " " + b + " " + c + " " + d)
  {
    var sp := " ";
    var all := a + b + c + d;
    assert AllDigits(all) by {
      forall k | 0 <= k < 16 ensures IsDigit(all[k]) {
        if k < 4 { assert all[k] == a[k]; }
        else if k < 8 { assert all[k] == b[k - 4]; }
        else if k < 12 { assert all[k] == c[k - 8]; }
        else { assert all[k] == d[k - 12]; }
      }
    }
    SixteenDigitsPass(all);
    CardNumberIgnoresWhitespace(a, sp, b + c + d);
    assert a + (b + c + d) == all;
    assert a + sp + (b + c + d) == (a + sp + b) + (c + d);
    CardNumberIgnoresWhitespace(a + sp + b, sp, c + d);
    assert (a + sp + b) + sp + (c + d) == (a + sp + b + sp + c) + d;
    CardNumberIgnoresWhitespace(a + sp + b + sp + c, sp, d);
  }

  /** Fewer than sixteen characters can never make a card number, such as "123". */
  lemma CardNumberTooShort(s: string)
    requires |s| < 16
    ensures !CardNumberOk(s)
  {
  }

  /** A number grouped with hyphens is refused: the hyphens are not stripped. */
  lemma CardNumberRefused()
    ensures !CardNumberOk("4111-1111-1111-1111")
  {
    var dashed := "4111-1111-1111-1111";
    var head, tail := dashed[..4], dashed[4..];
    assert dashed == head + tail;
    StripWhitespaceAppend(head, tail);
    assert tail[0] == '-' && !IsWhitespace('-');
    assert StripWhitespace(tail) == ['-'] + StripWhitespace(tail[1..]);
    var r := StripWhitespace(dashed);
    assert r[|StripWhitespace(head)|] == '-';
  }

  /** An expiry passes exactly when it is two digits, a slash and two digits. */
  lemma ExpiryShape(s: string)
    ensures ExpiryOk(s) <==>
      exists mm, yy :: |mm| == 2 && |yy| == 2 && AllDigits(mm) && AllDigits(yy) && s == mm + "/" + yy
  {
    if ExpiryOk(s) {
      var mm, yy := s[..2], s[3..];
      assert s == mm + "/" + yy;
      assert AllDigits(mm) && AllDigits(yy);
    }
    if exists mm, yy :: |mm| == 2 && |yy| == 2 && AllDigits(mm) && AllDigits(yy) && s == mm + "/" + yy {
      var mm, yy :| |mm| == 2 && |yy| == 2 && AllDigits(mm) && AllDigits(yy) && s == mm + "/" + yy;
      assert s[0] == mm[0] && s[1] == mm[1] && s[2] == '/' && s[3] == yy[0] && s[4] == yy[1];
    }
  }

  /** Expiry and CVV checks look at shape only. */
  lemma ExpiryCvvExamples()
    ensures ExpiryOk("12/26") && ExpiryOk("99/99") && !ExpiryOk("1/26")
    ensures CvvOk("123") && CvvOk("1234") && !CvvOk("12") && !CvvOk("12a")
  {
    assert "12a"[2] == 'a';
  }
}
