/**
 * Decimal text for integers: Python's `str(k)` on an `int` and `int(s)` on a
 * string. The settings file stores dictionary keys as decimal text, and the
 * device helpers number the axes in their labels.
 */
module Text {
  import opened Optional

  predicate IsDigit(c: char) { '0' <= c <= '9' }

  function DigitChar(d: nat): (c: char)
    requires d < 10
    ensures IsDigit(c)
  {
    ['0', '1', '2', '3', '4', '5', '6', '7', '8', '9'][d]
  }

  function DigitValue(c: char): nat
    requires IsDigit(c)
  {
    c as int - '0' as int
  }

  /** `str(n)` for a natural number: the decimal digits, without leading zeros. */
  function NatToString(n: nat): (s: string)
    ensures |s| > 0
    ensures forall i :: 0 <= i < |s| ==> IsDigit(s[i])
  {
    if n < 10 then [DigitChar(n)] else NatToString(n / 10) + [DigitChar(n % 10)]
  }

  /** `str(k)` for any integer: a minus sign before the digits of a negative one. */
  function IntToString(k: int): (s: string)
    ensures |s| > 0
  {
    if k < 0 then "-" + NatToString(-k) else NatToString(k)
  }

  /** The value of a nonempty string of decimal digits. */
  function DigitsValue(s: string): nat
    requires forall i :: 0 <= i < |s| ==> IsDigit(s[i])
  {
    if s == [] then 0 else 10 * DigitsValue(s[..|s| - 1]) + DigitValue(s[|s| - 1])
  }

  predicate AllDigits(s: string) {
    |s| > 0 && forall i :: 0 <= i < |s| ==> IsDigit(s[i])
  }

  /**
   * `int(s)` on a string: an optional sign followed by one or more decimal
   * digits; anything else raises `ValueError`, modelled as `None`.
   */
  function ParseInt(s: string): (r: Option<int>)
    ensures r.Some? ==> 0 < |s|
  {
    if |s| > 0 && (s[0] == '-' || s[0] == '+') then
      if AllDigits(s[1..]) then
        var v: int := DigitsValue(s[1..]);
        Some(if s[0] == '-' then -v else v)
      else None
    else if AllDigits(s) then Some(DigitsValue(s))
    else None
  }

  lemma {:induction false} DigitsOfNat(n: nat)
    ensures DigitsValue(NatToString(n)) == n
  {
    var s := NatToString(n);
    if n < 10 {
      assert s == [DigitChar(n)];
      assert s[..0] == [];
    } else {
      DigitsOfNat(n / 10);
      assert s[..|s| - 1] == NatToString(n / 10);
      assert s[|s| - 1] == DigitChar(n % 10);
    }
  }

  /** Distinct natural numbers have distinct digit strings. */
  lemma NatToStringInjective(i: nat, j: nat)
    requires NatToString(i) == NatToString(j)
    ensures i == j
  {
    DigitsOfNat(i);
    DigitsOfNat(j);
  }

  /** `int(str(k)) == k`: the decimal text of an integer reads back as that integer. */
  lemma ParseIntToString(k: int)
    ensures ParseInt(IntToString(k)) == Some(k)
  {
    if k < 0 {
      var n: nat := -k;
      ParseNegativeText(n);
      assert IntToString(k) == "-" + NatToString(n);
    } else {
      ParseNatText(k);
      assert IntToString(k) == NatToString(k);
    }
  }

  lemma ParseNatText(n: nat)
    ensures ParseInt(NatToString(n)) == Some(n)
  {
    var d := NatToString(n);
    DigitsOfNat(n);
    assert IsDigit(d[0]);
    assert AllDigits(d);
  }

  lemma ParseNegativeText(n: nat)
    requires n > 0
    ensures ParseInt("-" + NatToString(n)) == Some(-(n as int))
  {
    var d := NatToString(n);
    DigitsOfNat(n);
    var s := "-" + d;
    assert s[1..] == d;
    assert AllDigits(d);
  }

  /** Distinct integers have distinct decimal text. */
  lemma IntToStringInjective(i: int, j: int)
    requires i != j
    ensures IntToString(i) != IntToString(j)
  {
    ParseIntToString(i);
    ParseIntToString(j);
  }
  /** Every character is a decimal digit (the empty string included). */
  predicate Digits(s: string) {
    forall i :: 0 <= i < |s| ==> IsDigit(s[i])
  }

  /** The position of the first `.` in `s`, or `|s|` when there is none. */
  function DotIndex(s: string): (i: nat)
    ensures i <= |s|
    ensures i < |s| ==> s[i] == '.'
    ensures forall j :: 0 <= j < i ==> s[j] != '.'
  {
    if |s| == 0 || s[0] == '.' then 0 else 1 + DotIndex(s[1..])
  }

  function Pow10(k: nat): (r: nat)
    ensures r > 0
  {
    if k == 0 then 1 else 10 * Pow10(k - 1)
  }

  /**
   * Unsigned plain decimal text: digits, optionally a point and more
   * digits, with at least one digit in all (`"12"`, `"0.5"`, `".5"`, `"3."`).
   */
  function ParseUnsignedDecimal(s: string): Option<real> {
    var i := DotIndex(s);
    var whole := s[..i];
    var fraction := if i < |s| then s[i + 1..] else [];
    if 0 < |whole| + |fraction| && Digits(whole) && Digits(fraction) then Some(DigitsValue(whole) as real + DigitsValue(fraction) as real / Pow10(|fraction|) as real)
    else None
  }

  /**
   * `float(s)` on plain decimal text with an optional sign; other text
   * raises `ValueError`, modelled as `None`.
   */
  function ParseFloat(s: string): Option<real> {
    if |s| > 0 && (s[0] == '-' || s[0] == '+') then
      match ParseUnsignedDecimal(s[1..])
      case Some(v) => Some(if s[0] == '-' then -v else v)
      case None => None
    else ParseUnsignedDecimal(s)
  }

  /** `float(str(k)) == k`: the decimal text of an integer reads back as that number. */
  lemma ParseFloatOfIntText(k: int)
    ensures ParseFloat(IntToString(k)) == Some(k as real)
  {
    if k < 0 {
      ParseFloatOfNatText(-k);
      assert IntToString(k)[1..] == NatToString(-k);
    } else {
      ParseFloatOfNatText(k);
      assert IsDigit(NatToString(k)[0]);
    }
  }

  lemma ParseFloatOfNatText(k: nat)
    ensures ParseUnsignedDecimal(NatToString(k)) == Some(k as real)
  {
    var d := NatToString(k);
    DigitsOfNat(k);
    NoDot(d);
    assert d[..|d|] == d;
  }

  lemma NoDot(d: string)
    requires forall i :: 0 <= i < |d| ==> IsDigit(d[i])
    ensures DotIndex(d) == |d|
  {
    if |d| > 0 && DotIndex(d) < |d| {
      assert IsDigit(d[DotIndex(d)]);
    }
  }

  /** Text without a single digit is never a number. */
  lemma {:induction false} ParseFloatNeedsDigit(s: string)
    requires forall i :: 0 <= i < |s| ==> !IsDigit(s[i])
    ensures ParseFloat(s) == None
  {
    if |s| > 0 && (s[0] == '-' || s[0] == '+') {
      UnsignedNeedsDigit(s[1..]);
    } else {
      UnsignedNeedsDigit(s);
    }
  }

  lemma UnsignedNeedsDigit(s: string)
    requires forall i :: 0 <= i < |s| ==> !IsDigit(s[i])
    ensures ParseUnsignedDecimal(s) == None
  {
    var i := DotIndex(s);
    var whole := s[..i];
    var fraction := if i < |s| then s[i + 1..] else [];
    if 0 < |whole| {
      assert !IsDigit(whole[0]);
    } else if 0 < |fraction| {
      assert fraction[0] == s[i + 1];
      assert !Digits(fraction);
    }
  }
}
