/** Text-to-number conversion as Python's `int(str)` performs it, as a partial
    function: `None` where `int` raises `ValueError`. Also the decimal rendering
    that `int` inverts. */
module Numbers {
  import opened Wrappers

  /** The characters Python's `str.isspace()` accepts, which `str.split()`
      splits at: the ASCII space, the controls 9-13 and the information
      separators 28-31, NEXT LINE (U+0085), NO-BREAK SPACE (U+00A0), OGHAM
      SPACE MARK (U+1680), the spaces U+2000-U+200A, LINE and PARAGRAPH
      SEPARATOR (U+2028, U+2029), NARROW NO-BREAK SPACE (U+202F), MEDIUM
      MATHEMATICAL SPACE (U+205F) and IDEOGRAPHIC SPACE (U+3000). */
  predicate IsSpace(c: char)
  {
    var n := c as int;
    n == 32 || 9 <= n <= 13 || 28 <= n <= 31 || n == 0x85 || n == 0xA0 || n == 0x1680
    || 0x2000 <= n <= 0x200A || n == 0x2028 || n == 0x2029 || n == 0x202F || n == 0x205F || n == 0x3000
  }

  /** The whitespace `int()` strips around a literal. CPython turns every
      non-ASCII whitespace character into an ASCII space and then skips
      only the ASCII space and the controls 9-13, so the information
      separators 28-31 are not stripped: `int("\x1c5")` raises. */
  predicate IsIntSpace(c: char)
  {
    IsSpace(c) && !(28 <= c as int <= 31)
  }

  predicate IsDigit(c: char)
  {
    '0' <= c <= '9'
  }

  /** The number of characters `int()` strips at the front of `s`. */
  function LeadingSpaces(s: string): (n: nat)
    ensures n <= |s|
  {
    if s != [] && IsIntSpace(s[0]) then 1 + LeadingSpaces(s[1..]) else 0
  }

  /** The number of characters `int()` strips at the back of `s`. */
  function TrailingSpaces(s: string): (n: nat)
    ensures n <= |s|
  {
    if s != [] && IsIntSpace(s[|s| - 1]) then 1 + TrailingSpaces(s[..|s| - 1]) else 0
  }

  function StripLeading(s: string): string
  {
    s[LeadingSpaces(s)..]
  }

  function StripTrailing(s: string): string
  {
    s[..|s| - TrailingSpaces(s)]
  }

  /** `LeadingSpaces` counts exactly the leading run of whitespace. */
  lemma {:induction false} LeadingSpacesAreTheSpacePrefix(s: string)
    ensures forall i :: 0 <= i < LeadingSpaces(s) ==> IsIntSpace(s[i])
    ensures LeadingSpaces(s) == |s| || !IsIntSpace(s[LeadingSpaces(s)])
  {
    if s != [] && IsIntSpace(s[0]) {
      var t := s[1..];
      LeadingSpacesAreTheSpacePrefix(t);
      forall i | 1 <= i < LeadingSpaces(s)
        ensures IsIntSpace(s[i])
      {
        assert s[i] == t[i - 1];
      }
      assert LeadingSpaces(s) == |s| || s[LeadingSpaces(s)] == t[LeadingSpaces(t)];
    }
  }

  /** `TrailingSpaces` counts exactly the trailing run of whitespace. */
  lemma {:induction false} TrailingSpacesAreTheSpaceSuffix(s: string)
    ensures forall i :: |s| - TrailingSpaces(s) <= i < |s| ==> IsIntSpace(s[i])
    ensures TrailingSpaces(s) == |s| || !IsIntSpace(s[|s| - TrailingSpaces(s) - 1])
  {
    if s != [] && IsIntSpace(s[|s| - 1]) {
      var t := s[..|s| - 1];
      TrailingSpacesAreTheSpaceSuffix(t);
      forall i | |s| - TrailingSpaces(s) <= i < |s| - 1
        ensures IsIntSpace(s[i])
      {
        assert s[i] == t[i];
      }
      assert TrailingSpaces(s) == |s| || s[|s| - TrailingSpaces(s) - 1] == t[|t| - TrailingSpaces(t) - 1];
    }
  }

  /** The text with surrounding whitespace removed, as `int()` sees it. */
  function Strip(s: string): string
  {
    StripTrailing(StripLeading(s))
  }

  /** Stripping removes only whitespace, and all of it at both ends: the
      result is the part of the text between a run of leading and a run of
      trailing whitespace, and it neither starts nor ends with whitespace. */
  lemma StripRemovesOuterSpace(s: string)
    ensures LeadingSpaces(s) + |Strip(s)| <= |s|
    ensures Strip(s) == s[LeadingSpaces(s)..LeadingSpaces(s) + |Strip(s)|]
    ensures forall i :: 0 <= i < LeadingSpaces(s) ==> IsIntSpace(s[i])
    ensures forall i :: LeadingSpaces(s) + |Strip(s)| <= i < |s| ==> IsIntSpace(s[i])
    ensures Strip(s) == [] || (!IsIntSpace(Strip(s)[0]) && !IsIntSpace(Strip(s)[|Strip(s)| - 1]))
  {
    var k := LeadingSpaces(s);
    var u := StripLeading(s);
    var r := Strip(s);
    LeadingSpacesAreTheSpacePrefix(s);
    TrailingSpacesAreTheSpaceSuffix(u);
    assert u == s[k..] && r == u[..|u| - TrailingSpaces(u)];
    forall i | k + |r| <= i < |s|
      ensures IsIntSpace(s[i])
    {
      assert s[i] == u[i - k];
    }
    if r != [] {
      assert r[0] == s[k];
      assert r[|r| - 1] == u[|u| - TrailingSpaces(u) - 1];
    }
  }

  /** Stripping twice is stripping once. */
  lemma StripIdempotent(s: string)
    ensures Strip(Strip(s)) == Strip(s)
  {
    StripRemovesOuterSpace(s);
    if Strip(s) != [] {
      StripWithoutSurroundingSpace(Strip(s));
    }
  }

  /** An information separator (U+001C-U+001F) is whitespace to `str.split()`
      but not to `int()`: in front of any text it makes `int()` raise. */
  lemma SeparatorBlocksParse(c: char, s: string)
    requires 28 <= c as int <= 31
    ensures IsSpace(c) && ParseInt([c] + s) == None
  {
    var t := [c] + s;
    assert LeadingSpaces(t) == 0;
    TrailingSpacesAreTheSpaceSuffix(t);
    assert Strip(t)[0] == c;
  }

  /** A non-empty run of decimal digits (leading zeros allowed, as `int("007")`). */
  predicate IsNumeral(s: string)
  {
    |s| > 0 && forall i :: 0 <= i < |s| ==> IsDigit(s[i])
  }

  /** What `int()` accepts once whitespace is stripped: an optional sign
      followed by decimal digits. */
  predicate IsIntLiteral(t: string)
  {
    IsNumeral(t) || (|t| >= 2 && (t[0] == '+' || t[0] == '-') && IsNumeral(t[1..]))
  }

  function DigitValue(c: char): (d: nat)
    requires IsDigit(c)
    ensures d < 10
  {
    c as int - '0' as int
  }

  function NumeralValue(s: string): nat
    requires IsNumeral(s)
    decreases |s|
  {
    if |s| == 1 then DigitValue(s[0])
    else 10 * NumeralValue(s[..|s| - 1]) + DigitValue(s[|s| - 1])
  }

  /** `int(s)` for a string `s`: `None` where Python raises `ValueError`. */
  function ParseInt(s: string): (r: Option<int>)
    ensures r.Some? <==> IsIntLiteral(Strip(s))
    ensures r.Some? && r.value < 0 ==> Strip(s)[0] == '-'
  {
    var t := Strip(s);
    if IsNumeral(t) then Some(NumeralValue(t))
    else if |t| >= 2 && t[0] == '-' && IsNumeral(t[1..]) then Some(-(NumeralValue(t[1..]) as int))
    else if |t| >= 2 && t[0] == '+' && IsNumeral(t[1..]) then Some(NumeralValue(t[1..]))
    else None
  }

  function DigitChar(d: nat): (c: char)
    requires d < 10
    ensures IsDigit(c) && DigitValue(c) == d
  {
    ('0' as int + d) as char
  }

  /** Decimal rendering without leading zeros, as `str(n)` writes it. */
  function ShowNat(n: nat): string
  {
    if n < 10 then [DigitChar(n)] else ShowNat(n / 10) + [DigitChar(n % 10)]
  }

  function Show(n: int): string
  {
    if n < 0 then "-" + ShowNat(-n) else ShowNat(n)
  }

  lemma {:induction false} ShowNatIsNumeral(n: nat)
    ensures IsNumeral(ShowNat(n)) && NumeralValue(ShowNat(n)) == n
  {
    if n >= 10 {
      ShowNatIsNumeral(n / 10);
      var s := ShowNat(n);
      assert s[..|s| - 1] == ShowNat(n / 10);
    }
  }

  /** Text that begins and ends with a non-space character is unchanged by stripping. */
  lemma StripWithoutSurroundingSpace(s: string)
    requires s != [] && !IsIntSpace(s[0]) && !IsIntSpace(s[|s| - 1])
    ensures Strip(s) == s
  {
  }

  /** The rendering of a number starts with a digit or "-" and ends with a
      digit, so stripping leaves it unchanged. */
  lemma {:induction false} ShowIsStripped(n: int)
    ensures Strip(Show(n)) == Show(n)
  {
    var m: nat := if n < 0 then -n else n;
    ShowNatIsNumeral(m);
    var s := Show(n);
    assert IsDigit(s[|s| - 1]) && (IsDigit(s[0]) || s[0] == '-');
    StripWithoutSurroundingSpace(s);
  }

  /** `int(str(n)) == n` for every integer. */
  lemma {:induction false} ParseShowRoundTrip(n: int)
    ensures ParseInt(Show(n)) == Some(n)
  {
    var m: nat := if n < 0 then -n else n;
    ShowNatIsNumeral(m);
    ShowIsStripped(n);
    var s := Show(n);
    if n < 0 {
      assert s[1..] == ShowNat(m);
      assert !IsNumeral(s);
    }
  }

  lemma {:induction false} LeadingSpacesOfPadding(pad: string, s: string)
    requires forall i :: 0 <= i < |pad| ==> IsIntSpace(pad[i])
    requires s == [] || !IsIntSpace(s[0])
    ensures LeadingSpaces(pad + s) == |pad|
  {
    if pad != [] {
      assert (pad + s)[1..] == pad[1..] + s;
      LeadingSpacesOfPadding(pad[1..], s);
    }
  }

  lemma {:induction false} TrailingSpacesOfPadding(s: string, pad: string)
    requires forall i :: 0 <= i < |pad| ==> IsIntSpace(pad[i])
    requires s == [] || !IsIntSpace(s[|s| - 1])
    ensures TrailingSpaces(s + pad) == |pad|
  {
    if pad != [] {
      var p := pad[..|pad| - 1];
      assert (s + pad)[..|s + pad| - 1] == s + p;
      TrailingSpacesOfPadding(s, p);
    }
  }

  lemma StripLeadingSpaces(pad: string, s: string)
    requires forall i :: 0 <= i < |pad| ==> IsIntSpace(pad[i])
    requires s == [] || !IsIntSpace(s[0])
    ensures StripLeading(pad + s) == s
  {
    LeadingSpacesOfPadding(pad, s);
  }

  lemma StripTrailingSpaces(s: string, pad: string)
    requires forall i :: 0 <= i < |pad| ==> IsIntSpace(pad[i])
    requires s == [] || !IsIntSpace(s[|s| - 1])
    ensures StripTrailing(s + pad) == s
  {
    TrailingSpacesOfPadding(s, pad);
  }

  lemma SameStripSameParse(s: string, t: string)
    requires Strip(s) == Strip(t)
    ensures ParseInt(s) == ParseInt(t)
  {
  }

  /** `int()` ignores whitespace around the literal: `int("  42\n") == 42`. */
  lemma ParseIgnoresSurroundingSpace(before: string, s: string, after: string)
    requires forall i :: 0 <= i < |before| ==> IsIntSpace(before[i])
    requires forall i :: 0 <= i < |after| ==> IsIntSpace(after[i])
    requires s != [] && !IsIntSpace(s[0]) && !IsIntSpace(s[|s| - 1])
    ensures ParseInt(before + s + after) == ParseInt(s)
  {
    var t := before + s + after;
    assert Strip(t) == s by {
      assert t == before + (s + after);
      StripLeadingSpaces(before, s + after);
      StripTrailingSpaces(s, after);
    }
    StripWithoutSurroundingSpace(s);
    SameStripSameParse(t, s);
  }
}
