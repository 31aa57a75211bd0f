/** The tolerant price extraction of the stock card
    (components/StockCard.tsx): `parseFloat(s.replace(/,/g, '')
    .replace(/[^0-9.]/g, '')) || 0`, over exact reals.

    `parseFloat` is modelled on the only alphabet it is ever given here,
    digits and `.`: it reads the longest leading decimal numeral (digits,
    optionally a point and more digits, or a point followed by at least one
    digit) and answers NaN, here `None`, when there is none. */
module Price {
  import opened Base
  import opened Seqs

  predicate IsDigit(c: char) {
    '0' <= c <= '9'
  }

  predicate IsNumeralChar(c: char) {
    IsDigit(c) || c == '.'
  }

  predicate NotComma(c: char) {
    c != ','
  }

  /** The two `replace` passes: drop commas, then drop everything that is
      not a digit or a point. */
  function Sanitize(s: string): (r: string)
    ensures forall i :: 0 <= i < |r| ==> IsNumeralChar(r[i])
    ensures forall i :: 0 <= i < |s| && IsNumeralChar(s[i]) ==> s[i] in r
    ensures IsSubsequence(r, s)
    ensures r == Filter(IsNumeralChar, s)
  {
    FilterStronger(NotComma, IsNumeralChar, s);
    FilterIsSubsequence(IsNumeralChar, s);
    FilterMembers(IsNumeralChar, s);
    Filter(IsNumeralChar, Filter(NotComma, s))
  }

  /** Sanitising twice is sanitising once. */
  lemma {:induction false} SanitizeIdempotent(s: string)
    ensures Sanitize(Sanitize(s)) == Sanitize(s)
  {
    FilterIdempotent(IsNumeralChar, s);
  }

  /** Length of the leading run of digits. */
  function DigitRun(s: string): (n: nat)
    ensures n <= |s|
    ensures forall i :: 0 <= i < n ==> IsDigit(s[i])
    ensures n < |s| ==> !IsDigit(s[n])
  {
    if s != [] && IsDigit(s[0]) then 1 + DigitRun(s[1..]) else 0
  }

  predicate AllDigits(d: string) {
    forall i :: 0 <= i < |d| ==> IsDigit(d[i])
  }

  function DigitValue(c: char): nat
    requires IsDigit(c)
  {
    (c as int - '0' as int) as nat
  }

  function Pow10(k: nat): (r: nat)
    ensures r >= 1
  {
    if k == 0 then 1 else 10 * Pow10(k - 1)
  }

  /** The number a string of decimal digits denotes. */
  function DigitsValue(d: string): (r: nat)
    requires AllDigits(d)
    ensures r < Pow10(|d|)
  {
    if d == [] then 0 else DigitsValue(d[..|d| - 1]) * 10 + DigitValue(d[|d| - 1])
  }

  lemma {:induction false} ProperFraction(a: real, b: real)
    requires 0.0 <= a < b
    ensures 0.0 <= a / b < 1.0
  {
    var q := a / b;
    assert q * b == a;
    assert q >= 1.0 ==> q * b >= b;
  }

  /** The value of digits written after a decimal point. */
  function FractionValue(d: string): (r: real)
    requires AllDigits(d)
    ensures 0.0 <= r < 1.0
  {
    ProperFraction(DigitsValue(d) as real, Pow10(|d|) as real);
    (DigitsValue(d) as real) / (Pow10(|d|) as real)
  }

  /** `parseFloat` on a string of digits and points. */
  function ParseDecimal(s: string): (r: Option<real>)
  {
    var i := DigitRun(s);
    if i > 0 then
      var whole := DigitsValue(s[..i]) as real;
      if i < |s| && s[i] == '.' then
        var rest := s[i + 1..];
        Some(whole + FractionValue(rest[..DigitRun(rest)]))
      else Some(whole)
    else if |s| > 0 && s[0] == '.' && DigitRun(s[1..]) > 0 then
      Some(FractionValue(s[1..][..DigitRun(s[1..])]))
    else None
  }

  /** The string does not begin with a decimal numeral: it is empty, or starts
      with neither a digit nor a point followed by a digit. */
  predicate NoLeadingNumeral(t: string) {
    t == [] || (!IsDigit(t[0]) && !(t[0] == '.' && |t| > 1 && IsDigit(t[1])))
  }

  /** `parseFloat(Sanitize(s)) || 0`. */
  function ParsePrice(s: string): (r: real)
    ensures r >= 0.0
    ensures NoLeadingNumeral(Sanitize(s)) ==> r == 0.0
  {
    ParseDecimal(Sanitize(s)).GetOr(0.0)
  }

  /** `parseFloat` gives NaN exactly when there is no leading numeral. */
  lemma {:induction false} ParseDecimalNaN(t: string)
    ensures ParseDecimal(t).None? <==> NoLeadingNumeral(t)
  {
    if |t| > 1 && t[0] == '.' {
      assert t[1..][0] == t[1];
    }
  }

  /** Characters other than digits and points, commas included, do not
      affect the price. */
  lemma {:induction false} ParsePriceIgnoresOtherCharacters(s: string)
    ensures ParsePrice(s) == ParsePrice(Sanitize(s))
  {
    SanitizeIdempotent(s);
  }

  // ------------------------------------------------------------- rendering

  function DigitChar(n: nat): (c: char)
    requires n < 10
    ensures IsDigit(c) && DigitValue(c) == n
  {
    ('0' as int + n) as char
  }

  /** Decimal digits of a natural number, without leading zeros. */
  function NatDigits(n: nat): (d: string)
    ensures d != [] && AllDigits(d)
    decreases n
  {
    if n < 10 then [DigitChar(n)] else NatDigits(n / 10) + [DigitChar(n % 10)]
  }

  lemma {:induction false} NatDigitsValue(n: nat)
    ensures DigitsValue(NatDigits(n)) == n
    decreases n
  {
    if n >= 10 {
      NatDigitsValue(n / 10);
      var d := NatDigits(n);
      assert d[..|d| - 1] == NatDigits(n / 10);
    }
  }

  /** A leading run of digits followed by a non-digit is measured exactly. */
  lemma {:induction false} DigitRunOfPrefix(d: string, rest: string)
    requires AllDigits(d)
    requires rest == [] || !IsDigit(rest[0])
    ensures DigitRun(d + rest) == |d|
  {
    if d != [] {
      assert (d + rest)[1..] == d[1..] + rest;
      DigitRunOfPrefix(d[1..], rest);
    } else {
      assert d + rest == rest;
    }
  }

  /** Extraction reads back a whole number written in decimal. */
  lemma {:induction false} ParseNatDigits(n: nat)
    ensures ParsePrice(NatDigits(n)) == n as real
  {
    var d := NatDigits(n);
    SanitizeNumeral(d);
    DigitRunOfPrefix(d, []);
    assert d + [] == d;
    assert d[..|d|] == d;
    NatDigitsValue(n);
  }

  /** A price rendered with two decimals, as `toFixed(2)` writes a
      non-negative amount that has an exact two-decimal value. */
  function FixedTwo(units: nat, cents: nat): string
    requires cents < 100
  {
    NatDigits(units) + "." + [DigitChar(cents / 10), DigitChar(cents % 10)]
  }

  /** A string made only of digits and points is its own sanitised form. */
  lemma {:induction false} SanitizeNumeral(s: string)
    requires forall i :: 0 <= i < |s| ==> IsNumeralChar(s[i])
    ensures Sanitize(s) == s
  {
    FilterAll(IsNumeralChar, s);
  }

  /** The value of two digits written after a point. */
  lemma {:induction false} TwoDigitFraction(cents: nat)
    requires cents < 100
    ensures FractionValue([DigitChar(cents / 10), DigitChar(cents % 10)]) == (cents as real) / 100.0
  {
    var c := [DigitChar(cents / 10), DigitChar(cents % 10)];
    assert c[..1] == [c[0]];
    assert [c[0]][..0] == [];
    assert DigitsValue(c) == cents;
    assert Pow10(|c|) == 100;
  }

  /** Digits, a point and digits: the leading run stops at the point. */
  lemma {:induction false} PointSplit(d: string, f: string)
    requires AllDigits(d)
    ensures var s := d + "." + f;
            DigitRun(s) == |d| && |d| < |s| && s[..|d|] == d && s[|d|] == '.' && s[|d| + 1..] == f
  {
    var s := d + "." + f;
    assert s == d + ("." + f);
    DigitRunOfPrefix(d, "." + f);
  }

  /** `parseFloat` of digits, a point and digits is the whole part plus the
      fraction. */
  lemma {:induction false} ParseDecimalPoint(d: string, f: string)
    requires d != [] && AllDigits(d) && AllDigits(f)
    ensures ParseDecimal(d + "." + f) == Some(DigitsValue(d) as real + FractionValue(f))
  {
    var s := d + "." + f;
    PointSplit(d, f);
    assert f[..DigitRun(f)] == f by {
      DigitRunOfPrefix(f, []);
      assert f + [] == f;
    }
    ParseDecimalWithPoint(s);
  }

  /** How `parseFloat` reads digits followed by a point. */
  lemma {:induction false} ParseDecimalWithPoint(s: string)
    requires DigitRun(s) > 0 && DigitRun(s) < |s| && s[DigitRun(s)] == '.'
    ensures var i := DigitRun(s);
            ParseDecimal(s) == Some(DigitsValue(s[..i]) as real + FractionValue(s[i + 1..][..DigitRun(s[i + 1..])]))
  {
  }

  /** Extraction reads back exactly the amount a two-decimal rendering shows. */
  lemma {:induction false} ParseFixedTwo(units: nat, cents: nat)
    requires cents < 100
    ensures ParsePrice(FixedTwo(units, cents)) == units as real + (cents as real) / 100.0
  {
    var d := NatDigits(units);
    var c := [DigitChar(cents / 10), DigitChar(cents % 10)];
    var s := FixedTwo(units, cents);
    assert forall i :: 0 <= i < |s| ==> IsNumeralChar(s[i]);
    SanitizeNumeral(s);
    ParseDecimalPoint(d, c);
    NatDigitsValue(units);
    TwoDigitFraction(cents);
  }

  /** The card's fallback for a target or stop-loss that is still "TBD". */
  lemma {:induction false} TbdIsZero()
    ensures ParsePrice("TBD") == 0.0
  {
    FilterNone(IsNumeralChar, "TBD");
  }
}
