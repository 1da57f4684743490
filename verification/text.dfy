/** The JavaScript string operations the shop relies on: `toUpperCase`,
    `toLowerCase` (on ASCII letters), `trim`, `includes`, and the decimal
    rendering of an integer inside a template literal. */
module Text {

  import opened Types

  function UpperChar(c: char): char
  {
    if 'a' <= c <= 'z' then (c as int - 32) as char else c
  }

  function LowerChar(c: char): char
  {
    if 'A' <= c <= 'Z' then (c as int + 32) as char else c
  }

  /** `s.toUpperCase()`, letter by letter. */
  function Upper(s: string): (r: string)
    ensures |r| == |s|
    ensures forall i :: 0 <= i < |s| ==> LowerChar(r[i]) == LowerChar(s[i]) && !('a' <= r[i] <= 'z')
  {
    seq(|s|, i requires 0 <= i < |s| => UpperChar(s[i]))
  }

  /** `s.toLowerCase()`, letter by letter. */
  function Lower(s: string): (r: string)
    ensures |r| == |s|
    ensures forall i :: 0 <= i < |s| ==> UpperChar(r[i]) == UpperChar(s[i]) && !('A' <= r[i] <= 'Z')
  {
    seq(|s|, i requires 0 <= i < |s| => LowerChar(s[i]))
  }

  /** An upper-cased string holds no lower-case ASCII letter. */
  lemma UpperHasNoLowercase(s: string, i: int)
    requires 0 <= i < |s|
    ensures !('a' <= Upper(s)[i] <= 'z')
  {
  }

  /** Two strings that agree after lower-casing also agree after upper-casing. */
  lemma {:induction false} UpperOfLower(s: string)
    ensures Upper(Lower(s)) == Upper(s)
  {
    forall i | 0 <= i < |s|
      ensures Upper(Lower(s))[i] == Upper(s)[i]
    {
      var c := s[i];
      assert Lower(s)[i] == LowerChar(c);
    }
  }

  /** The code points `String.prototype.trim` removes: the ECMAScript
      WhiteSpace (TAB, VT, FF, SP, NBSP, ZWNBSP and the Unicode space
      separators U+1680, U+2000-U+200A, U+202F, U+205F, U+3000) and
      LineTerminator (LF, CR, LS, PS) code points. */
  const JsSpaceCodes: set<int> := {
    0x09, 0x0A, 0x0B, 0x0C, 0x0D, 0x20, 0xA0, 0x1680,
    0x2000, 0x2001, 0x2002, 0x2003, 0x2004, 0x2005, 0x2006, 0x2007, 0x2008, 0x2009, 0x200A,
    0x2028, 0x2029, 0x202F, 0x205F, 0x3000, 0xFEFF }

  predicate IsJsSpace(c: char)
  {
    c as int in JsSpaceCodes
  }

  /** Every character of `s` is white space (vacuously so for ""). */
  predicate IsBlank(s: string)
  {
    forall i :: 0 <= i < |s| ==> IsJsSpace(s[i])
  }

  /** The number of white-space characters `s` starts with. */
  function LeadingBlanks(s: string): (n: nat)
    ensures n <= |s| && IsBlank(s[..n])
    ensures n < |s| ==> !IsJsSpace(s[n])
  {
    if s != [] && IsJsSpace(s[0]) then
      var n := 1 + LeadingBlanks(s[1..]);
      assert s[..n] == [s[0]] + s[1..][..n - 1];
      BlankExtends(s[1..][..n - 1], s[0]);
      assert n < |s| ==> s[n] == s[1..][n - 1];
      n
    else 0
  }

  /** The number of white-space characters `s` ends with. */
  function TrailingBlanks(s: string): (n: nat)
    ensures n <= |s| && IsBlank(s[|s| - n..])
    ensures n < |s| ==> !IsJsSpace(s[|s| - n - 1])
  {
    if s != [] && IsJsSpace(s[|s| - 1]) then
      var init := s[..|s| - 1];
      var n := 1 + TrailingBlanks(init);
      assert s[|s| - n..] == init[|init| - (n - 1)..] + [s[|s| - 1]];
      BlankExtends(init[|init| - (n - 1)..], s[|s| - 1]);
      assert n < |s| ==> s[|s| - n - 1] == init[|init| - (n - 1) - 1];
      n
    else 0
  }

  /** A string made of a blank prefix and a blank rest is blank. */
  lemma BlankEndsMakeBlank(s: string, a: nat)
    requires a <= |s| && IsBlank(s[..a]) && IsBlank(s[a..])
    ensures IsBlank(s)
  {
    forall i | 0 <= i < |s| ensures IsJsSpace(s[i]) {
      if i < a {
        assert s[..a][i] == s[i];
      } else {
        assert s[a..][i - a] == s[i];
      }
    }
  }

  /** Adding a white-space character at either end keeps a string blank. */
  lemma BlankExtends(t: string, c: char)
    requires IsBlank(t) && IsJsSpace(c)
    ensures IsBlank([c] + t) && IsBlank(t + [c])
  {
    assert forall i :: 0 < i <= |t| ==> ([c] + t)[i] == t[i - 1];
    assert forall i :: 0 <= i < |t| ==> (t + [c])[i] == t[i];
  }

  /** The middle left between a blank prefix of length `a` and a blank
      suffix of length `b` is empty only when `s` is blank. */
  lemma MiddleEmptyIffBlank(s: string, a: nat, b: nat)
    requires a <= |s| - b && IsBlank(s[..a]) && IsBlank(s[|s| - b..])
    requires a < |s| ==> !IsJsSpace(s[a])
    ensures a == |s| - b <==> IsBlank(s)
  {
    if a == |s| - b {
      BlankEndsMakeBlank(s, a);
    } else {
      assert !IsJsSpace(s[a]);
    }
  }

  /** `r` is `s` with a blank prefix and a blank suffix taken away. */
  predicate BlankEndsRemoved(s: string, r: string)
  {
    exists a :: 0 <= a <= |s| - |r| && r == s[a..a + |r|] && IsBlank(s[..a]) && IsBlank(s[a + |r|..])
  }

  /** The middle `r` left between a blank prefix of length `a` and a blank
      suffix of length `b`, each as long as it can be, has the properties of
      `trim`. */
  lemma TrimmedMiddle(s: string, a: nat, b: nat, r: string)
    requires a <= |s| && IsBlank(s[..a]) && (a < |s| ==> !IsJsSpace(s[a]))
    requires b <= |s[a..]| && IsBlank(s[a..][|s[a..]| - b..])
    requires b < |s[a..]| ==> !IsJsSpace(s[a..][|s[a..]| - b - 1])
    requires r == s[a..|s| - b]
    ensures |r| <= |s|
    ensures r == [] <==> IsBlank(s)
    ensures r != [] ==> !IsJsSpace(r[0]) && !IsJsSpace(r[|r| - 1])
    ensures BlankEndsRemoved(s, r)
  {
    assert s[a..][|s[a..]| - b..] == s[|s| - b..];
    MiddleEmptyIffBlank(s, a, b);
    if r != [] {
      assert r[0] == s[a] && r[|r| - 1] == s[a..][|s[a..]| - b - 1];
    }
    assert 0 <= a <= |s| - |r| && r == s[a..a + |r|] && IsBlank(s[..a]) && IsBlank(s[a + |r|..]);
  }

  /** `s.trim()`: `s` without its blank ends. */
  function Trim(s: string): (r: string)
    ensures |r| <= |s|
    ensures r == [] <==> IsBlank(s)
    ensures r != [] ==> !IsJsSpace(r[0]) && !IsJsSpace(r[|r| - 1])
    ensures BlankEndsRemoved(s, r)
  {
    var a := LeadingBlanks(s);
    var b := TrailingBlanks(s[a..]);
    var r := s[a..|s| - b];
    TrimmedMiddle(s, a, b, r);
    r
  }

  /** `s.includes(sub)`: `sub` occurs in `s` at some position. */
  predicate Includes(s: string, sub: string)
  {
    sub <= s || (s != [] && Includes(s[1..], sub))
  }

  /** `sub` occurs in `s` starting at position `k`. */
  predicate OccursAt(s: string, sub: string, k: int)
  {
    0 <= k <= |s| - |sub| && s[k..k + |sub|] == sub
  }

  /** `includes` holds exactly when `sub` occurs at some position of `s`. */
  lemma {:induction false} IncludesAt(s: string, sub: string)
    ensures Includes(s, sub) <==> exists k :: OccursAt(s, sub, k)
  {
    if sub <= s {
      assert OccursAt(s, sub, 0);
    } else if s == [] {
    } else {
      IncludesAt(s[1..], sub);
      if Includes(s[1..], sub) {
        var k :| OccursAt(s[1..], sub, k);
        assert s[k + 1..k + 1 + |sub|] == s[1..][k..k + |sub|];
        assert OccursAt(s, sub, k + 1);
      }
      if exists k :: OccursAt(s, sub, k) {
        var k :| OccursAt(s, sub, k);
        assert k != 0;
        assert s[1..][k - 1..k - 1 + |sub|] == s[k..k + |sub|];
        assert OccursAt(s[1..], sub, k - 1);
      }
    }
  }

  /** A string never includes a longer one. */
  lemma {:induction false} IncludesNotLonger(s: string, sub: string)
    requires |sub| > |s|
    ensures !Includes(s, sub)
  {
    if s != [] {
      IncludesNotLonger(s[1..], sub);
    }
  }

  /** The empty string occurs in every string. */
  lemma IncludesEmpty(s: string)
    ensures Includes(s, "")
  {
  }

  // ---- decimal rendering of integers, `${n}` in a template literal ----

  const Digits: string := "0123456789"

  function NatToString(n: nat): (r: string)
    ensures |r| >= 1
    ensures forall i :: 0 <= i < |r| ==> '0' <= r[i] <= '9'
    decreases n
  {
    if n < 10 then [Digits[n]] else NatToString(n / 10) + [Digits[n % 10]]
  }

  /** `${n}` for an integer `n` (below 10^21, where JavaScript switches to exponent form). */
  function IntToString(n: int): (r: string)
    ensures |r| >= 1
  {
    if n < 0 then "-" + NatToString(-n) else NatToString(n)
  }

  predicate AllDigits(s: string)
  {
    forall i :: 0 <= i < |s| ==> '0' <= s[i] <= '9'
  }

  /** The value of a string of decimal digits, read left to right. */
  function DigitsValue(s: string): nat
    requires AllDigits(s)
  {
    if s == [] then 0 else DigitsValue(s[..|s| - 1]) * 10 + (s[|s| - 1] as int - '0' as int)
  }

  /** Reads back an optionally signed decimal integer; `None` for anything else. */
  function ParseDecimal(s: string): Option<int>
  {
    if |s| > 1 && s[0] == '-' && AllDigits(s[1..]) then Some(0 - DigitsValue(s[1..]))
    else if s != [] && AllDigits(s) then Some(DigitsValue(s))
    else None
  }

  lemma {:induction false} NatToStringRoundTrip(n: nat)
    ensures AllDigits(NatToString(n)) && DigitsValue(NatToString(n)) == n
    decreases n
  {
    if n >= 10 {
      NatToStringRoundTrip(n / 10);
      var s := NatToString(n);
      assert s[..|s| - 1] == NatToString(n / 10);
    }
  }

  lemma NonNegativeRoundTrip(n: int)
    requires n >= 0
    ensures ParseDecimal(IntToString(n)) == Some(n)
  {
    var s := NatToString(n);
    NatToStringRoundTrip(n);
    assert s[0] != '-';
  }

  /** A minus sign followed by digits reads back as the negated value. */
  lemma ParseNegative(digits: string)
    requires digits != [] && AllDigits(digits)
    ensures ParseDecimal("-" + digits) == Some(0 - DigitsValue(digits))
  {
    assert ("-" + digits)[1..] == digits;
  }

  lemma ParseNegatedNatToString(m: nat)
    ensures ParseDecimal("-" + NatToString(m)) == Some(0 - m)
  {
    NatToStringRoundTrip(m);
    ParseNegative(NatToString(m));
  }

  lemma NegativeRoundTrip(n: int)
    requires n < 0
    ensures ParseDecimal(IntToString(n)) == Some(n)
  {
    var m: nat := -n;
    ParseNegatedNatToString(m);
    assert IntToString(n) == "-" + NatToString(m);
  }

  /** Reading back the rendering of an integer gives the integer. */
  lemma IntToStringRoundTrip(n: int)
    ensures ParseDecimal(IntToString(n)) == Some(n)
  {
    if n < 0 {
      NegativeRoundTrip(n);
    } else {
      NonNegativeRoundTrip(n);
    }
  }
}
