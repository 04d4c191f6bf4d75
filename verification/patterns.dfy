/** The two identifier patterns the auth screens test, and the JavaScript
    string length their password checks use.

    `EmailShaped` is the unanchored test of `/\S+@\S+\.\S+/`, `PhoneShaped`
    the anchored test of `/^[0-9]{10}$/`.  `RegexTest` states what an
    unanchored regular-expression test means (some substring of the input
    lies in the pattern's language) and `EmailShapedIsRegexTest` proves the
    executable predicate agrees with it. */
module Patterns {

  /** `\s` of ECMAScript regular expressions: the WhiteSpace and
      LineTerminator code points (tab, LF, VT, FF, CR, space, NBSP, the
      Unicode space separators, LS, PS and the byte-order mark). */
  predicate IsWhitespace(c: char)
    ensures IsWhitespace(c) ==> c != '@' && c != '.' && !IsAsciiDigit(c)
  {
    var n := c as int;
    (9 <= n <= 13) || n == 0x20 || n == 0xA0 || n == 0x1680 ||
    (0x2000 <= n <= 0x200A) || n == 0x2028 || n == 0x2029 ||
    n == 0x202F || n == 0x205F || n == 0x3000 || n == 0xFEFF
  }

  predicate IsAsciiDigit(c: char) {
    '0' <= c <= '9'
  }

  /** Every character of `s[lo..hi]` matches `\S`. */
  predicate NonSpace(s: string, lo: int, hi: int)
    requires 0 <= lo <= hi <= |s|
  {
    forall k :: lo <= k < hi ==> !IsWhitespace(s[k])
  }

  /** A match of `\S+@\S+\.\S+` whose `@` is at `p` and whose `.` is at `q`:
      the shortest such match is `s[p-1..q+2]`. */
  predicate EmailMatchAt(s: string, p: int, q: int) {
    1 <= p && p + 2 <= q && q + 2 <= |s| &&
    s[p] == '@' && s[q] == '.' &&
    !IsWhitespace(s[p - 1]) && NonSpace(s, p + 1, q) && !IsWhitespace(s[q + 1])
  }

  /** `/\S+@\S+\.\S+/.test(s)`. */
  predicate EmailShaped(s: string)
    ensures EmailShaped(s) ==> |s| >= 5 && '@' in s && '.' in s
  {
    exists p, q | 0 <= p < q < |s| :: EmailMatchAt(s, p, q)
  }

  /** `/^[0-9]{10}$/.test(s)`. */
  predicate PhoneShaped(s: string)
    ensures PhoneShaped(s) ==> '@' !in s && '.' !in s
  {
    |s| == 10 && forall i :: 0 <= i < |s| ==> IsAsciiDigit(s[i])
  }

  /** `s.length` in JavaScript: strings are UTF-16, so a code point outside
      the Basic Multilingual Plane counts as two code units. */
  function JsLength(s: string): (n: nat)
    ensures |s| <= n <= 2 * |s|
    ensures n == |s| <==> forall i :: 0 <= i < |s| ==> s[i] as int < 0x10000
  {
    if s == [] then 0
    else (if s[0] as int < 0x10000 then 1 else 2) + JsLength(s[1..])
  }

  // ---------------------------------------------------------------------
  // Reference semantics of the email regular expression

  ghost predicate AllNonSpace(t: string) {
    forall k :: 0 <= k < |t| ==> !IsWhitespace(t[k])
  }

  /** `t` splits as `a + "@" + b + "." + c` with `a = t[..p]`,
      `b = t[p+1..q]` and `c = t[q+1..]` non-empty runs of non-whitespace. */
  ghost predicate EmailSplit(t: string, p: int, q: int) {
    0 < p && p + 1 < q && q + 1 < |t| &&
    t[p] == '@' && t[q] == '.' &&
    AllNonSpace(t[..p]) && AllNonSpace(t[p + 1..q]) && AllNonSpace(t[q + 1..])
  }

  /** `t` as a whole is in the language of `\S+@\S+\.\S+`. */
  ghost predicate InEmailLanguage(t: string) {
    exists p, q :: EmailSplit(t, p, q)
  }

  /** An unanchored test succeeds when some substring is in the language. */
  ghost predicate RegexTest(s: string) {
    exists i, j :: 0 <= i <= j <= |s| && InEmailLanguage(s[i..j])
  }

  lemma {:induction false} MatchAtGivesRegexTest(s: string, p: int, q: int)
    requires EmailMatchAt(s, p, q)
    ensures RegexTest(s)
  {
    var t := s[p - 1..q + 2];
    var b := t[2..q - p + 1];
    assert t[..1] == [s[p - 1]];
    assert t[q - p + 2..] == [s[q + 1]];
    assert AllNonSpace(b) by {
      forall k | 0 <= k < |b| ensures !IsWhitespace(b[k]) {
        assert b[k] == s[p + 1 + k];
      }
    }
    assert EmailSplit(t, 1, q - p + 1);
    assert InEmailLanguage(s[p - 1..q + 2]);
  }

  lemma {:induction false} RegexTestGivesMatchAt(s: string)
    requires RegexTest(s)
    ensures EmailShaped(s)
  {
    var i, j :| 0 <= i <= j <= |s| && InEmailLanguage(s[i..j]);
    var t := s[i..j];
    var p', q' :| EmailSplit(t, p', q');
    var p, q := i + p', i + q';
    var a, b, c := t[..p'], t[p' + 1..q'], t[q' + 1..];
    assert s[p] == '@' && s[q] == '.';
    assert s[p - 1] == a[p' - 1];
    assert s[q + 1] == c[0];
    forall k | p + 1 <= k < q ensures !IsWhitespace(s[k]) {
      assert s[k] == b[k - p - 1];
    }
    assert EmailMatchAt(s, p, q);
  }

  /** The executable predicate is exactly the regular expression's test. */
  lemma EmailShapedIsRegexTest(s: string)
    ensures EmailShaped(s) <==> RegexTest(s)
  {
    if EmailShaped(s) {
      var p, q :| 0 <= p < q < |s| && EmailMatchAt(s, p, q);
      MatchAtGivesRegexTest(s, p, q);
    }
    if RegexTest(s) {
      RegexTestGivesMatchAt(s);
    }
  }

  /** No 10-digit phone number is email-shaped: the two patterns are
      disjoint. */
  lemma PhoneIsNotEmail(s: string)
    requires PhoneShaped(s)
    ensures !EmailShaped(s)
  {
  }
}
