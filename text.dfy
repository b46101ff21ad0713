/** String helpers with JavaScript's meaning: `String.prototype.trim`, `includes`,
    `startsWith`/`endsWith`, `join`, case-insensitive substring search for the
    ASCII patterns the runtime's regular expressions use, and decimal printing
    and parsing of integers. */
module Text {

  /** WhiteSpace and LineTerminator code points as ECMAScript's `trim` strips
      them (TAB, VT, FF, SP, NBSP, ZWNBSP, the Zs category, LF, CR, LS, PS). */
  predicate IsWhitespace(c: char) {
    c in {'\t', '\n', '\U{000B}', '\U{000C}', '\r', ' ', '\U{00A0}', '\U{1680}',
          '\U{2028}', '\U{2029}', '\U{202F}', '\U{205F}', '\U{3000}', '\U{FEFF}'}
    || ('\U{2000}' <= c <= '\U{200A}')
  }

  /** Line terminators: the characters a regular-expression `.` does not match. */
  predicate IsLineTerminator(c: char) {
    c in {'\n', '\r', '\U{2028}', '\U{2029}'}
  }

  predicate AllWhitespace(s: string) {
    forall i :: 0 <= i < |s| ==> IsWhitespace(s[i])
  }

  function TrimStart(s: string): (r: string)
    ensures |r| <= |s|
    ensures r == s[|s| - |r|..]
    ensures AllWhitespace(s[..|s| - |r|])
    ensures |r| > 0 ==> !IsWhitespace(r[0])
  {
    if |s| > 0 && IsWhitespace(s[0]) then TrimStart(s[1..]) else s
  }

  function TrimEnd(s: string): (r: string)
    ensures |r| <= |s|
    ensures r == s[..|r|]
    ensures AllWhitespace(s[|r|..])
    ensures |r| > 0 ==> !IsWhitespace(r[|r| - 1])
  {
    if |s| > 0 && IsWhitespace(s[|s| - 1]) then TrimEnd(s[..|s| - 1]) else s
  }

  /** `s.trim()`: the longest middle part of `s` that neither starts nor ends
      with whitespace. */
  function Trim(s: string): (r: string)
  {
    TrimEnd(TrimStart(s))
  }

  /** Trim removes exactly whitespace from both ends. */
  lemma TrimShape(s: string)
    ensures var r := Trim(s);
      exists i :: 0 <= i <= |s| - |Trim(s)| && s[i..i + |r|] == r
        && AllWhitespace(s[..i]) && AllWhitespace(s[i + |r|..])
  {
    PaddedShape(s, TrimStart(s), Trim(s));
  }

  lemma PaddedShape(s: string, t: string, r: string)
    requires |t| <= |s| && t == s[|s| - |t|..] && AllWhitespace(s[..|s| - |t|])
    requires |r| <= |t| && r == t[..|r|] && AllWhitespace(t[|r|..])
    ensures exists i :: (0 <= i <= |s| - |r| && s[i..i + |r|] == r
                          && AllWhitespace(s[..i]) && AllWhitespace(s[i + |r|..]))
  {
    var i := |s| - |t|;
    assert s[i..i + |r|] == r;
    assert s[i + |r|..] == t[|r|..];
  }

  /** What Trim leaves neither starts nor ends with whitespace. */
  lemma TrimEnds(s: string)
    ensures Trim(s) == "" || (!IsWhitespace(Trim(s)[0]) && !IsWhitespace(Trim(s)[|Trim(s)| - 1]))
  {
    var t := TrimStart(s);
    var r := TrimEnd(t);
    if |r| > 0 {
      assert r[0] == t[0];
    }
  }

  /** Trimming a string that is already trimmed changes nothing. */
  lemma {:induction false} TrimIdempotent(s: string)
    ensures Trim(Trim(s)) == Trim(s)
  {
    TrimEnds(s);
    TrimOfTrimmed(Trim(s));
  }

  lemma TrimOfTrimmed(t: string)
    requires t == "" || (!IsWhitespace(t[0]) && !IsWhitespace(t[|t| - 1]))
    ensures Trim(t) == t
  {
  }

  /** A name that starts and ends with a lower-case letter is its own trim. */
  lemma TrimmedWord(s: string)
    requires |s| > 0 ==> 'a' <= s[0] <= 'z' && 'a' <= s[|s| - 1] <= 'z'
    ensures Trim(s) == s
  {
    if |s| > 0 {
      TrimOfTrimmed(s);
    }
  }

  /** Whitespace padding around a trimmed string is exactly what Trim removes. */
  lemma {:induction false} TrimPadded(pre: string, t: string, post: string)
    requires AllWhitespace(pre) && AllWhitespace(post)
    requires t == "" || (!IsWhitespace(t[0]) && !IsWhitespace(t[|t| - 1]))
    ensures Trim(pre + t + post) == t
  {
    assert pre + t + post == pre + (t + post);
    TrimStartPadded(pre, t + post);
    if t == "" {
      assert t + post == post;
      TrimStartAllWhitespace(post);
    } else {
      assert TrimStart(t + post) == t + post;
      TrimEndPadded(t, post);
    }
  }

  lemma {:induction false} TrimStartPadded(pre: string, rest: string)
    requires AllWhitespace(pre)
    ensures TrimStart(pre + rest) == TrimStart(rest)
    decreases |pre|
  {
    if |pre| > 0 {
      var s := pre + rest;
      assert s[0] == pre[0] && IsWhitespace(pre[0]);
      assert s[1..] == pre[1..] + rest;
      assert AllWhitespace(pre[1..]) by {
        forall i | 0 <= i < |pre[1..]| ensures IsWhitespace(pre[1..][i]) {
          assert pre[1..][i] == pre[i + 1];
        }
      }
      TrimStartPadded(pre[1..], rest);
    } else {
      assert pre + rest == rest;
    }
  }

  lemma {:induction false} TrimStartAllWhitespace(s: string)
    requires AllWhitespace(s)
    ensures TrimStart(s) == ""
    decreases |s|
  {
    if |s| > 0 {
      assert IsWhitespace(s[0]);
      assert AllWhitespace(s[1..]) by {
        forall i | 0 <= i < |s[1..]| ensures IsWhitespace(s[1..][i]) {
          assert s[1..][i] == s[i + 1];
        }
      }
      TrimStartAllWhitespace(s[1..]);
    }
  }

  lemma {:induction false} TrimEndPadded(t: string, post: string)
    requires |t| > 0 && !IsWhitespace(t[|t| - 1])
    requires AllWhitespace(post)
    ensures TrimEnd(t + post) == t
    decreases |post|
  {
    var s := t + post;
    if |post| > 0 {
      assert s[|s| - 1] == post[|post| - 1];
      assert IsWhitespace(post[|post| - 1]);
      var shorter := post[..|post| - 1];
      assert s[..|s| - 1] == t + shorter;
      assert AllWhitespace(shorter) by {
        forall i | 0 <= i < |shorter| ensures IsWhitespace(shorter[i]) {
          assert shorter[i] == post[i];
        }
      }
      TrimEndPadded(t, shorter);
    } else {
      assert s == t;
    }
  }

  /** `sub` occurs in `s` starting at index `i`. */
  predicate OccursAt(s: string, sub: string, i: int) {
    0 <= i <= |s| - |sub| && s[i..i + |sub|] == sub
  }

  /** `s.includes(sub)`. */
  predicate Contains(s: string, sub: string) {
    exists i :: 0 <= i <= |s| - |sub| && OccursAt(s, sub, i)
  }

  /** `s.startsWith(p)`. */
  predicate StartsWith(s: string, p: string) {
    |p| <= |s| && s[..|p|] == p
  }

  /** `s.endsWith(p)`. */
  predicate EndsWith(s: string, p: string) {
    |p| <= |s| && s[|s| - |p|..] == p
  }

  /** ASCII upper-casing. A regular expression with the `i` flag and no `u`
      flag canonicalises by upper-casing, but never maps a non-ASCII character
      onto an ASCII one, so for patterns made of ASCII characters folding ASCII
      letters is exactly what the match compares. */
  function AsciiUpper(c: char): (u: char)
    ensures 'a' <= c <= 'z' ==> u as int == c as int - 32
    ensures !('a' <= c <= 'z') ==> u == c
  {
    if 'a' <= c <= 'z' then (c as int - 32) as char else c
  }

  function UpperAll(s: string): (r: string)
    ensures |r| == |s|
    ensures forall i :: 0 <= i < |s| ==> r[i] == AsciiUpper(s[i])
  {
    seq(|s|, i requires 0 <= i < |s| => AsciiUpper(s[i]))
  }

  lemma UpperAllConcat(a: string, b: string)
    ensures UpperAll(a + b) == UpperAll(a) + UpperAll(b)
  {
    var l, r := UpperAll(a + b), UpperAll(a) + UpperAll(b);
    assert |l| == |r|;
    forall i | 0 <= i < |l| ensures l[i] == r[i] {
      if i < |a| {
        assert (a + b)[i] == a[i];
      } else {
        assert (a + b)[i] == b[i - |a|];
      }
    }
  }

  /** `/sub/i.test(s)` for a pattern `sub` free of regular-expression syntax. */
  predicate ContainsIgnoreCase(s: string, sub: string) {
    Contains(UpperAll(s), UpperAll(sub))
  }

  /** A witness-based introduction rule for Contains. */
  lemma ContainsAt(s: string, sub: string, i: int)
    requires OccursAt(s, sub, i)
    ensures Contains(s, sub)
  {
  }

  /** A string contains itself surrounded by anything. */
  lemma ContainsInfix(pre: string, sub: string, post: string)
    ensures Contains(pre + sub + post, sub)
  {
    var s := pre + sub + post;
    assert OccursAt(s, sub, |pre|);
  }

  /** `parts.join(sep)`. */
  function Join(parts: seq<string>, sep: string): string
  {
    if |parts| == 0 then ""
    else if |parts| == 1 then parts[0]
    else parts[0] + sep + Join(parts[1..], sep)
  }

  function DigitChar(d: nat): (c: char)
    requires d < 10
    ensures '0' <= c <= '9'
  {
    ['0', '1', '2', '3', '4', '5', '6', '7', '8', '9'][d]
  }

  predicate IsDigit(c: char) {
    '0' <= c <= '9'
  }

  /** Decimal digits of a natural number, most significant first, no leading zero. */
  function NatToString(n: nat): (r: string)
    ensures |r| > 0
    ensures forall i :: 0 <= i < |r| ==> IsDigit(r[i])
    ensures |r| > 1 ==> r[0] != '0'
  {
    if n < 10 then [DigitChar(n)] else NatToString(n / 10) + [DigitChar(n % 10)]
  }

  /** `String(n)` for an integer small enough to print without an exponent. */
  function IntToString(n: int): (r: string)
    ensures |r| > 0
    ensures r[0] == '-' <==> n < 0
  {
    if n < 0 then "-" + NatToString(-n) else NatToString(n)
  }

  /** The value of a string of decimal digits. */
  function DigitsValue(s: string): (v: nat)
    requires forall i :: 0 <= i < |s| ==> IsDigit(s[i])
  {
    if |s| == 0 then 0
    else
      assert IsDigit(s[|s| - 1]);
      DigitsValue(s[..|s| - 1]) * 10 + (s[|s| - 1] as int - '0' as int)
  }

  /** Printing a natural number and reading its digits back gives the number. */
  lemma {:induction false} NatToStringRoundTrip(n: nat)
    ensures DigitsValue(NatToString(n)) == n
  {
    if n >= 10 {
      var r := NatToString(n);
      NatToStringRoundTrip(n / 10);
      assert r[..|r| - 1] == NatToString(n / 10);
    }
  }

  lemma DropSign(x: string)
    ensures ("-" + x)[1..] == x
  {
  }

  /** `IntToString` is injective: distinct integers print differently. */
  lemma IntToStringInjective(a: int, b: int)
    requires IntToString(a) == IntToString(b)
    ensures a == b
  {
    if a < 0 {
      assert b < 0;
      var x, y := NatToString(-a), NatToString(-b);
      DropSign(x);
      DropSign(y);
      NatToStringInjective(-a, -b);
    } else {
      assert b >= 0;
      NatToStringInjective(a, b);
    }
  }

  /** Distinct natural numbers print differently. */
  lemma NatToStringInjective(a: nat, b: nat)
    requires NatToString(a) == NatToString(b)
    ensures a == b
  {
    NatToStringRoundTrip(a);
    NatToStringRoundTrip(b);
  }

  // ---------------------------------------------------------------------------
  // UTF-16 code units
  // ---------------------------------------------------------------------------

  /** A UTF-16 code unit: what a JavaScript string's `length` counts and
      `slice` cuts. */
  newtype CodeUnit = x: int | 0 <= x < 0x1_0000

  predicate IsHighSurrogate(u: CodeUnit) {
    0xD800 <= u < 0xDC00
  }

  predicate IsLowSurrogate(u: CodeUnit) {
    0xDC00 <= u < 0xE000
  }

  /** The code units of one character: itself below U+10000, otherwise a
      high surrogate followed by a low surrogate. */
  function Utf16Char(c: char): (r: seq<CodeUnit>)
    ensures (c as int) < 0x1_0000 ==> r == [c as int as CodeUnit]
    ensures (c as int) >= 0x1_0000 ==> |r| == 2 && IsHighSurrogate(r[0]) && IsLowSurrogate(r[1])
  {
    var n := c as int;
    if n < 0x1_0000 then [n as CodeUnit]
    else [(0xD800 + (n - 0x1_0000) / 0x400) as CodeUnit, (0xDC00 + (n - 0x1_0000) % 0x400) as CodeUnit]
  }

  /** The JavaScript string holding `s`. */
  function Utf16(s: string): seq<CodeUnit>
  {
    if |s| == 0 then [] else Utf16Char(s[0]) + Utf16(s[1..])
  }

  /** A text made only of characters below U+10000 has one code unit per
      character, each equal to the character. */
  lemma {:induction false} Utf16Bmp(s: string)
    requires forall i :: 0 <= i < |s| ==> (s[i] as int) < 0x1_0000
    ensures |Utf16(s)| == |s|
    ensures forall i :: 0 <= i < |s| ==> Utf16(s)[i] as int == s[i] as int
  {
    if |s| > 0 {
      Utf16Bmp(s[1..]);
      assert Utf16(s) == [s[0] as int as CodeUnit] + Utf16(s[1..]);
      forall i | 0 <= i < |s| ensures Utf16(s)[i] as int == s[i] as int {
        if i > 0 {
          assert Utf16(s)[i] == Utf16(s[1..])[i - 1];
          assert s[1..][i - 1] == s[i];
        }
      }
    }
  }

  /** Characters from U+10000 on take two code units each. */
  lemma {:induction false} Utf16Astral(s: string)
    requires forall i :: 0 <= i < |s| ==> (s[i] as int) >= 0x1_0000
    ensures |Utf16(s)| == 2 * |s|
    ensures forall i :: 0 <= i < |s| ==> IsHighSurrogate(Utf16(s)[2 * i]) && IsLowSurrogate(Utf16(s)[2 * i + 1])
  {
    if |s| > 0 {
      Utf16Astral(s[1..]);
      var u := Utf16(s);
      assert u == Utf16Char(s[0]) + Utf16(s[1..]);
      forall i | 0 <= i < |s| ensures IsHighSurrogate(u[2 * i]) && IsLowSurrogate(u[2 * i + 1]) {
        if i > 0 {
          assert u[2 * i] == Utf16(s[1..])[2 * (i - 1)];
          assert u[2 * i + 1] == Utf16(s[1..])[2 * (i - 1) + 1];
          assert s[1..][i - 1] == s[i];
        }
      }
    }
  }
}
