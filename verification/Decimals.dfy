/** Decimal numerals: Python's `str(int)`, `int(str)` and the canonical-decimal pattern. */
module Decimals {

  predicate IsDigit(c: char)
  {
    '0' <= c <= '9'
  }

  function DigitChar(d: nat): (c: char)
    requires d < 10
    ensures IsDigit(c)
  {
    (d + '0' as int) as char
  }

  predicate AllDigits(s: string)
  {
    forall i | 0 <= i < |s| :: IsDigit(s[i])
  }

  /** `str(n)` for a natural number. */
  function Digits(n: nat): (s: string)
    ensures s != "" && AllDigits(s)
  {
    if n < 10 then [DigitChar(n)] else Digits(n / 10) + [DigitChar(n % 10)]
  }

  /** `int(s)` for a string of ASCII digits. */
  function DigitsValue(s: string): nat
    requires AllDigits(s)
  {
    if s == "" then 0 else DigitsValue(s[..|s| - 1]) * 10 + (s[|s| - 1] as int - '0' as int)
  }

  /** `str(n)` for any integer. */
  function Decimal(n: int): string
  {
    if n < 0 then "-" + Digits(-n) else Digits(n)
  }

  /** No leading zero except in "0" itself: the pattern `(0|[1-9][0-9]*)`. */
  predicate CanonicalDigits(s: string)
  {
    s != "" && AllDigits(s) && (s[0] != '0' || s == "0")
  }

  lemma {:induction false} DigitsRoundTrip(n: nat)
    ensures DigitsValue(Digits(n)) == n
  {
    if n >= 10 {
      DigitsRoundTrip(n / 10);
      var s := Digits(n);
      assert s[..|s| - 1] == Digits(n / 10);
    } else {
      assert Digits(n)[..0] == "";
    }
  }

  lemma {:induction false} DigitsAreCanonical(n: nat)
    ensures CanonicalDigits(Digits(n))
    ensures Digits(n)[0] == '0' <==> n == 0
  {
    if n >= 10 {
      DigitsAreCanonical(n / 10);
    }
  }

  lemma DecimalInjective(m: int, n: int)
    requires Decimal(m) == Decimal(n)
    ensures m == n
  {
    var s := Decimal(m);
    assert (s[0] == '-') == (m < 0) && (s[0] == '-') == (n < 0);
    if m < 0 {
      assert s[1..] == Digits(-m) && s[1..] == Digits(-n);
      DigitsRoundTrip(-m);
      DigitsRoundTrip(-n);
    } else {
      DigitsRoundTrip(m);
      DigitsRoundTrip(n);
    }
  }

  /** A canonical numeral is the one printed for its value. */
  lemma {:induction false} CanonicalIsPrinted(s: string)
    requires CanonicalDigits(s)
    ensures Digits(DigitsValue(s)) == s
  {
    var init, last := s[..|s| - 1], s[|s| - 1];
    if init == "" {
      assert DigitsValue(init) == 0 && s == [last];
    } else {
      assert init[0] == s[0] && AllDigits(init);
      CanonicalIsPrinted(init);
      DigitsAreCanonical(DigitsValue(init));
      assert s == init + [last];
    }
  }

  predicate WritesNatural(n: nat, t: string)
  {
    CanonicalDigits(t) && DigitsValue(t) == n
  }

  /** The text of a number: no leading zero, and a sign exactly for a negative one. */
  predicate WritesInteger(n: int, t: string)
  {
    if n < 0 then t != "" && t[0] == '-' && WritesNatural(-n, t[1..]) else WritesNatural(n, t)
  }

  lemma IntegerIsWritten(n: int, t: string)
    ensures WritesInteger(n, t) <==> t == Decimal(n)
  {
    var magnitude: nat := if n < 0 then -n else n;
    DigitsAreCanonical(magnitude);
    DigitsRoundTrip(magnitude);
    if WritesInteger(n, t) {
      CanonicalIsPrinted(if n < 0 then t[1..] else t);
      assert n < 0 ==> t == "-" + t[1..];
    }
    assert n < 0 ==> Decimal(n)[1..] == Digits(magnitude);
  }
}
