/** Decimal rendering of integers, as Go's `%d` verb writes them, and a
    parser that reads such a rendering back. */
module Decimal {
  import opened Wrappers

  predicate IsDigit(c: char)
  {
    '0' <= c <= '9'
  }

  predicate AllDigits(s: string)
  {
    forall i :: 0 <= i < |s| ==> IsDigit(s[i])
  }

  /** A digit string as `%d` writes a natural number: at least one digit and
      no leading zero, except for "0" itself. */
  predicate CanonicalDigits(s: string)
  {
    |s| >= 1 && AllDigits(s) && (s[0] == '0' ==> |s| == 1)
  }

  /** A string `%d` can produce: canonical digits, or a minus sign followed
      by the canonical digits of a non-zero number (there is no "-0"). */
  predicate CanonicalInt(s: string)
  {
    CanonicalDigits(s) || (|s| >= 2 && s[0] == '-' && CanonicalDigits(s[1..]) && s[1..] != "0")
  }

  function DigitChar(d: int): (c: char)
    requires 0 <= d < 10
    ensures IsDigit(c) && c as int - '0' as int == d
  {
    ('0' as int + d) as char
  }

  function DigitValue(c: char): (d: int)
    requires IsDigit(c)
    ensures 0 <= d < 10 && DigitChar(d) == c
  {
    c as int - '0' as int
  }

  /** The decimal digits of `n`, most significant first. */
  function Digits(n: nat): (s: string)
    ensures CanonicalDigits(s)
    ensures s == "0" <==> n == 0
    decreases n
  {
    if n < 10 then [DigitChar(n)] else Digits(n / 10) + [DigitChar(n % 10)]
  }

  /** The number a string of digits denotes (leading zeros allowed). */
  function DigitsValue(s: string): nat
    requires AllDigits(s)
    decreases |s|
  {
    if s == [] then 0 else DigitsValue(s[..|s| - 1]) * 10 + DigitValue(s[|s| - 1])
  }

  /** Go's `%d` (and `strconv.Itoa`) on an integer: a leading '-' exactly
      for negative numbers, then the digits of the magnitude. */
  function FormatInt(n: int): (s: string)
    ensures CanonicalInt(s)
    ensures s[0] == '-' <==> n < 0
    ensures forall i :: 0 <= i < |s| ==> s[i] == '-' || IsDigit(s[i])
  {
    if n < 0 then "-" + Digits(-n) else Digits(n)
  }

  /** Reads a whole string written as `%d` writes an integer; anything else,
      such as a leading zero, "-0" or a '+' sign, is rejected. */
  function ParseInt(s: string): Option<int>
  {
    if !CanonicalInt(s) then None
    else if s[0] == '-' then Some(-(DigitsValue(s[1..]) as int))
    else Some(DigitsValue(s))
  }

  lemma {:induction false} DigitsRoundTrip(n: nat)
    ensures DigitsValue(Digits(n)) == n
    decreases n
  {
    if n >= 10 {
      var s := Digits(n);
      assert s[..|s| - 1] == Digits(n / 10);
      DigitsRoundTrip(n / 10);
    }
  }

  /** A digit string without a leading zero denotes a positive number. */
  lemma {:induction false} LeadingDigitPositive(s: string)
    requires |s| >= 1 && AllDigits(s) && s[0] != '0'
    ensures DigitsValue(s) >= 1
    decreases |s|
  {
    if |s| > 1 {
      LeadingDigitPositive(s[..|s| - 1]);
    } else {
      assert s[..0] == [];
    }
  }

  lemma {:induction false} CanonicalDigitsRoundTrip(s: string)
    requires CanonicalDigits(s)
    ensures Digits(DigitsValue(s)) == s
    decreases |s|
  {
    var init, last := s[..|s| - 1], s[|s| - 1];
    if |s| == 1 {
      assert init == [];
    } else {
      LeadingDigitPositive(init);
      CanonicalDigitsRoundTrip(init);
      var v := DigitsValue(s);
      assert v / 10 == DigitsValue(init) && v % 10 == DigitValue(last);
      assert s == init + [last];
    }
  }

  /** Reading back what `%d` wrote gives the number that was written. */
  lemma FormatIntRoundTrip(n: int)
    ensures ParseInt(FormatInt(n)) == Some(n)
  {
    var s := FormatInt(n);
    if n < 0 {
      assert s[1..] == Digits(-n);
      DigitsRoundTrip(-n);
    } else {
      DigitsRoundTrip(n);
    }
  }

  /** Conversely every canonical integer string is what `%d` writes for the
      number it denotes, so `FormatInt` produces exactly the canonical strings. */
  lemma ParseIntRoundTrip(s: string)
    requires CanonicalInt(s)
    ensures ParseInt(s).Some? && FormatInt(ParseInt(s).value) == s
  {
    if CanonicalDigits(s) {
      CanonicalDigitsRoundTrip(s);
    } else {
      var t := s[1..];
      CanonicalDigitsRoundTrip(t);
      LeadingDigitPositive(t);
      assert !AllDigits(s) by { assert !IsDigit(s[0]); }
      assert s == "-" + t;
    }
  }

  /** Renderings of a few values as `%d` writes them. */
  lemma FormatIntExamples()
    ensures FormatInt(0) == "0" && FormatInt(7) == "7"
    ensures FormatInt(76) == "76" && FormatInt(-10) == "-10"
  {
  }

  /** `%d` is injective: different numbers never share a rendering. */
  lemma FormatIntInjective(a: int, b: int)
    requires FormatInt(a) == FormatInt(b)
    ensures a == b
  {
    FormatIntRoundTrip(a);
    FormatIntRoundTrip(b);
  }
}
