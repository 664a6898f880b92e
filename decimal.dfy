/** Base-10 rendering of integers, as `strconv.FormatInt(n, 10)` does it, and
    a parser for those renderings that serves as its inverse. */
module Decimal {
  import opened Base

  predicate IsDigit(c: char) {
    '0' <= c <= '9'
  }

  predicate AllDigits(s: string) {
    forall i :: 0 <= i < |s| ==> IsDigit(s[i])
  }

  function DigitChar(d: nat): (c: char)
    requires d < 10
    ensures IsDigit(c)
  {
    ('0' as int + d) as char
  }

  function DigitValue(c: char): (d: nat)
    requires IsDigit(c)
    ensures d < 10 && DigitChar(d) == c
  {
    c as int - '0' as int
  }

  /** The digits of `n`, most significant first, with no leading zero. */
  function FormatNat(n: nat): (r: string)
    ensures |r| >= 1 && AllDigits(r)
    ensures r[0] == '0' <==> n == 0
    ensures n == 0 ==> r == "0"
  {
    if n < 10 then [DigitChar(n)] else FormatNat(n / 10) + [DigitChar(n % 10)]
  }

  /** `strconv.FormatInt(n, 10)`: a minus sign before the digits of a
      negative number. */
  function FormatInt(n: int): (r: string)
    ensures IsCanonical(r)
    ensures r[0] == '-' <==> n < 0
  {
    if n < 0 then "-" + FormatNat(-n) else FormatNat(n)
  }

  /** The value of a string of decimal digits. */
  function DigitsValue(s: string): nat
    requires AllDigits(s)
  {
    if s == [] then 0 else DigitsValue(s[..|s| - 1]) * 10 + DigitValue(s[|s| - 1])
  }

  /** Reads an optional minus sign followed by at least one digit. */
  function ParseInt(s: string): Option<int> {
    if |s| >= 2 && s[0] == '-' && AllDigits(s[1..]) then Some(0 - DigitsValue(s[1..]) as int)
    else if |s| >= 1 && AllDigits(s) then Some(DigitsValue(s))
    else None
  }

  /** The renderings `FormatInt` produces: a minus sign only before a
      non-zero number, no leading zeros except in `0` itself. */
  predicate IsCanonical(s: string) {
    if |s| >= 1 && s[0] == '-' then |s| >= 2 && AllDigits(s[1..]) && s[1] != '0'
    else |s| >= 1 && AllDigits(s) && (s[0] == '0' ==> s == "0")
  }

  lemma {:induction false} DigitsOfFormatNat(n: nat)
    ensures DigitsValue(FormatNat(n)) == n
  {
    var r := FormatNat(n);
    if n >= 10 {
      DigitsOfFormatNat(n / 10);
      assert r[..|r| - 1] == FormatNat(n / 10);
    }
  }

  /** Parsing a rendering gives back the number rendered. */
  lemma ParseFormatInt(n: int)
    ensures ParseInt(FormatInt(n)) == Some(n)
  {
    var r := FormatInt(n);
    if n < 0 {
      var t := FormatNat(-n);
      assert r[1..] == t;
      DigitsOfFormatNat(-n);
      assert ParseInt(r) == Some(0 - DigitsValue(t) as int);
    } else {
      var t := FormatNat(n);
      assert r == t && IsDigit(t[0]);
      DigitsOfFormatNat(n);
      assert ParseInt(r) == Some(DigitsValue(t));
    }
  }

  lemma {:induction false} LeadingDigitPositive(s: string)
    requires |s| >= 1 && AllDigits(s) && s[0] != '0'
    ensures DigitsValue(s) >= 1
  {
    if |s| > 1 {
      LeadingDigitPositive(s[..|s| - 1]);
    }
  }

  lemma {:induction false} FormatDigitsValue(s: string)
    requires |s| >= 1 && AllDigits(s) && (s[0] == '0' ==> s == "0")
    ensures FormatNat(DigitsValue(s)) == s
  {
    var n := DigitsValue(s);
    var p := s[..|s| - 1];
    var d := DigitValue(s[|s| - 1]);
    if |s| == 1 {
      assert p == [];
      assert DigitsValue(p) == 0;
    } else {
      assert p[0] == s[0];
      LeadingDigitPositive(p);
      FormatDigitsValue(p);
      assert n / 10 == DigitsValue(p) && n % 10 == d;
      assert s == p + [s[|s| - 1]];
    }
  }

  /** Rendering a parsed canonical string gives back that string, so the
      renderings are exactly the canonical strings. */
  lemma FormatParseInt(s: string)
    requires IsCanonical(s)
    ensures ParseInt(s).Some? && FormatInt(ParseInt(s).value) == s
  {
    if s[0] == '-' {
      var t := s[1..];
      LeadingDigitPositive(t);
      FormatDigitsValue(t);
      assert s == "-" + t;
    } else {
      FormatDigitsValue(s);
    }
  }

  /** The rendering of a three-digit number, digit by digit. */
  lemma FormatThreeDigits(n: int)
    requires 100 <= n < 1000
    ensures FormatInt(n) == [DigitChar(n / 100), DigitChar(n / 10 % 10), DigitChar(n % 10)]
  {
    assert FormatNat(n / 100) == [DigitChar(n / 100)];
    assert FormatNat(n / 10) == FormatNat(n / 100) + [DigitChar(n / 10 % 10)];
  }
}
