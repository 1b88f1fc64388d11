/**
 * Character and string helpers shared by the storefront's validators, lookups and
 * messages: ASCII digits, JavaScript's `toLowerCase` on the Latin-1 range,
 * `startsWith` / `endsWith`, and the decimal rendering of numbers that template
 * literals perform (with the parser that undoes it).
 */
module Text {
  import opened Wrappers

  predicate IsAsciiDigit(c: char) {
    '0' <= c <= '9'
  }

  predicate AllDigits(s: string) {
    forall i :: 0 <= i < |s| ==> IsAsciiDigit(s[i])
  }

  /**
   * `toLowerCase` on one character, for the characters that can lower-case into the
   * Latin-1 range: ASCII capitals and the Latin-1 capitals U+00C0..U+00D6 and
   * U+00D8..U+00DE (accented vowels, Ñ, Ü, ...) move down by 0x20, and the four
   * capitals from outside Latin-1 whose lower case lies inside it (Ÿ, ẞ, the Kelvin
   * sign and the Ångström sign) map to ÿ, ß, k and å. Every other character is kept.
   */
  function LowerChar(c: char): (l: char)
    ensures IsAsciiDigit(l) <==> IsAsciiDigit(c)
  {
    if 'A' <= c <= 'Z' || 'À' <= c <= 'Ö' || 'Ø' <= c <= 'Þ' then
      (c as int + 0x20) as char
    else if c == '\U{178}' then '\U{FF}'
    else if c == '\U{1E9E}' then '\U{DF}'
    else if c == '\U{212A}' then 'k'
    else if c == '\U{212B}' then '\U{E5}'
    else
      c
  }

  function Lower(s: string): (r: string)
    ensures |r| == |s|
  {
    seq(|s|, i requires 0 <= i < |s| => LowerChar(s[i]))
  }

  lemma LowerCharIdempotent(c: char)
    ensures LowerChar(LowerChar(c)) == LowerChar(c)
  {
  }

  lemma LowerIdempotent(s: string)
    ensures Lower(Lower(s)) == Lower(s)
  {
    forall i | 0 <= i < |s| ensures Lower(Lower(s))[i] == Lower(s)[i] {
      LowerCharIdempotent(s[i]);
    }
  }

  lemma LowerAppend(a: string, b: string)
    ensures Lower(a + b) == Lower(a) + Lower(b)
  {
    assert forall i :: 0 <= i < |a + b| ==> Lower(a + b)[i] == (Lower(a) + Lower(b))[i];
  }

  predicate StartsWith(s: string, prefix: string) {
    |prefix| <= |s| && s[..|prefix|] == prefix
  }

  predicate EndsWith(s: string, suffix: string) {
    |suffix| <= |s| && s[|s| - |suffix|..] == suffix
  }

  /** A suffix of a suffix is a suffix. */
  lemma EndsWithTransitive(s: string, mid: string, suffix: string)
    requires EndsWith(s, mid) && EndsWith(mid, suffix)
    ensures EndsWith(s, suffix)
  {
    assert s[|s| - |suffix|..] == s[|s| - |mid|..][|mid| - |suffix|..];
  }

  // ----- lengths as JavaScript counts them -----

  /**
   * `s.length`: the number of UTF-16 code units, which is one per character of the Basic
   * Multilingual Plane and two (a surrogate pair) per character above it.
   */
  function Utf16Length(s: string): (n: nat)
    ensures |s| <= n <= 2 * |s|
    decreases |s|
  {
    if s == [] then 0 else (if s[0] as int < 0x10000 then 1 else 2) + Utf16Length(s[1..])
  }

  /** The UTF-16 length is the number of characters exactly when none lies above the Basic Multilingual Plane. */
  lemma {:induction false} Utf16LengthOfBmp(s: string)
    ensures Utf16Length(s) == |s| <==> forall i :: 0 <= i < |s| ==> s[i] as int < 0x10000
    decreases |s|
  {
    if s != [] {
      Utf16LengthOfBmp(s[1..]);
      if forall i :: 0 <= i < |s| ==> s[i] as int < 0x10000 {
        assert forall i :: 0 <= i < |s[1..]| ==> s[1..][i] == s[i + 1];
      } else if s[0] as int < 0x10000 {
        var i :| 0 <= i < |s| && s[i] as int >= 0x10000;
        assert s[1..][i - 1] == s[i];
      }
    }
  }

  /** A character above the Basic Multilingual Plane counts twice. */
  lemma AstralCountsTwice()
    ensures Utf16Length("\U{1F33D}") == 2
  {
    assert "\U{1F33D}"[1..] == [];
  }

  // ----- decimal rendering, as `${n}` does for an integral number -----

  function DigitChar(d: nat): (c: char)
    requires d < 10
    ensures IsAsciiDigit(c)
  {
    ('0' as int + d) as char
  }

  function DigitValue(c: char): (d: nat)
    requires IsAsciiDigit(c)
    ensures d < 10 && DigitChar(d) == c
  {
    c as int - '0' as int
  }

  /** The shortest decimal numeral of `n`: at least one digit, no leading zero. */
  function NatToString(n: nat): (s: string)
    ensures |s| >= 1 && AllDigits(s)
    ensures |s| > 1 ==> s[0] != '0'
    decreases n
  {
    if n < 10 then [DigitChar(n)] else NatToString(n / 10) + [DigitChar(n % 10)]
  }

  /** How an integral JavaScript number is written by a template literal. */
  function IntToString(i: int): (s: string)
  {
    if i < 0 then "-" + NatToString(-i) else NatToString(i)
  }

  /** A decimal numeral as `IntToString` writes one: digits, and no leading zero unless it is "0". */
  predicate Numeral(s: string) {
    |s| >= 1 && AllDigits(s) && (|s| == 1 || s[0] != '0')
  }

  /** The value of a string of decimal digits (the empty string reads as 0). */
  function ParseNat(s: string): (n: nat)
    requires AllDigits(s)
    decreases |s|
  {
    if s == [] then 0 else ParseNat(s[..|s| - 1]) * 10 + DigitValue(s[|s| - 1])
  }

  /** Reads back what `IntToString` writes and nothing else: the text is exactly the rendering of the result. */
  function ParseInt(s: string): (r: Option<int>)
    ensures r.Some? ==> IntToString(r.value) == s
  {
    if |s| >= 2 && s[0] == '-' && Numeral(s[1..]) && s[1..] != "0" then
      var n: int := ParseNat(s[1..]);
      NumeralParses(s[1..]);
      assert IntToString(-n) == "-" + NatToString(n) && s == "-" + s[1..];
      Some(-n)
    else if Numeral(s) then
      NumeralParses(s);
      Some(ParseNat(s))
    else None
  }

  /** A numeral with a non-zero first digit has a positive value. */
  lemma {:induction false} LeadingDigitPositive(s: string)
    requires |s| >= 1 && AllDigits(s) && s[0] != '0'
    ensures ParseNat(s) >= 1
    decreases |s|
  {
    if |s| > 1 {
      LeadingDigitPositive(s[..|s| - 1]);
    }
  }

  /** Rendering the value of a numeral gives the numeral back. */
  lemma {:induction false} NumeralParses(s: string)
    requires Numeral(s)
    ensures NatToString(ParseNat(s)) == s
    ensures s != "0" ==> ParseNat(s) >= 1
    decreases |s|
  {
    if |s| > 1 {
      var p := s[..|s| - 1];
      assert p[0] == s[0];
      LeadingDigitPositive(p);
      NumeralParses(p);
      var n := ParseNat(s);
      assert n == ParseNat(p) * 10 + DigitValue(s[|s| - 1]);
      assert n / 10 == ParseNat(p) && n % 10 == DigitValue(s[|s| - 1]);
      assert s == p + [s[|s| - 1]];
    } else if s != "0" {
      assert s == [s[0]];
    }
  }

  lemma {:induction false} ParseNatToString(n: nat)
    ensures ParseNat(NatToString(n)) == n
    decreases n
  {
    if n >= 10 {
      var s := NatToString(n);
      assert s[..|s| - 1] == NatToString(n / 10);
      ParseNatToString(n / 10);
    }
  }

  /** Decimal rendering is injective: the number can always be read back. */
  lemma IntToStringRoundTrip(i: int)
    ensures ParseInt(IntToString(i)) == Some(i)
  {
    if i < 0 {
      NegativeRoundTrip(i);
    } else {
      var s := NatToString(i);
      ParseNatToString(i);
      assert s[0] != '-' && Numeral(s);
    }
  }

  lemma NegativeRoundTrip(i: int)
    requires i < 0
    ensures ParseInt(IntToString(i)) == Some(i)
  {
    var digits := NatToString(-i);
    ParseNatToString(-i);
    assert ParseNat("0") == 0;
    ParseNegative(digits);
  }

  /** A minus sign before a numeral other than "0" reads as the negated value. */
  lemma ParseNegative(digits: string)
    requires Numeral(digits) && digits != "0"
    ensures ParseInt("-" + digits) == Some(-(ParseNat(digits) as int))
  {
    var s := "-" + digits;
    assert s[0] == '-' && s[1..] == digits;
  }
}
