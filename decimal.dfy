/** Decimal text, as the screens produce and read it: `String(n)` and template
    literals for whole numbers, `parseInt(s, 10)` for the line-item index in a
    control name, and `Number(s)` for the quantity and price a form holds. */
module Decimal {
  import opened Wrappers

  predicate IsDigit(c: char) {
    '0' <= c <= '9'
  }

  predicate AllDigits(s: string) {
    forall i :: 0 <= i < |s| ==> IsDigit(s[i])
  }

  function DigitValue(c: char): (d: nat)
    requires IsDigit(c)
    ensures d < 10
  {
    c as int - '0' as int
  }

  function DigitChar(d: nat): (c: char)
    requires d < 10
    ensures IsDigit(c) && DigitValue(c) == d
  {
    ('0' as int + d) as char
  }

  /** The value of a string of decimal digits, most significant first; "" is 0. */
  function DigitsValue(s: string): nat
    requires AllDigits(s)
  {
    if s == [] then 0 else 10 * DigitsValue(s[..|s| - 1]) + DigitValue(s[|s| - 1])
  }

  function Pow10(k: nat): (p: nat)
    ensures p >= 1
  {
    if k == 0 then 1 else 10 * Pow10(k - 1)
  }

  /** `String(n)` for a whole number n: its digits, without leading zeros. */
  function NatText(n: nat): (s: string)
    ensures 1 <= |s| && AllDigits(s)
    ensures |s| == 1 || s[0] != '0'
  {
    if n < 10 then [DigitChar(n)] else NatText(n / 10) + [DigitChar(n % 10)]
  }

  /** `String(k)` for a whole number k of either sign. */
  function IntText(k: int): string {
    if k < 0 then "-" + NatText(-k) else NatText(k)
  }

  lemma {:induction false} NatTextValue(n: nat)
    ensures DigitsValue(NatText(n)) == n
  {
    if n >= 10 {
      NatTextValue(n / 10);
      var s := NatText(n);
      assert s[..|s| - 1] == NatText(n / 10);
    }
  }

  /** The decimal text of n has at most m digits exactly when n < 10^m. */
  lemma {:induction false} NatTextLength(n: nat, m: nat)
    requires m >= 1
    ensures |NatText(n)| <= m <==> n < Pow10(m)
  {
    if n >= 10 {
      if m > 1 {
        NatTextLength(n / 10, m - 1);
      }
      assert n / 10 < Pow10(m - 1) <==> n < 10 * Pow10(m - 1);
    } else {
      Pow10AtLeastTen(m);
    }
  }

  lemma {:induction false} Pow10AtLeastTen(m: nat)
    requires m >= 1
    ensures Pow10(m) >= 10
  {
    if m > 1 {
      Pow10AtLeastTen(m - 1);
    }
  }

  /** The longest prefix of s made of digits. */
  function LeadingDigits(s: string): (p: string)
    ensures AllDigits(p) && p <= s
    ensures |p| < |s| ==> !IsDigit(s[|p|])
  {
    if s != [] && IsDigit(s[0]) then [s[0]] + LeadingDigits(s[1..]) else []
  }

  /** Whether s starts with a sign character, and what follows it. */
  function IsNegative(s: string): bool {
    |s| > 0 && s[0] == '-'
  }

  function Unsigned(s: string): (u: string)
    ensures |u| <= |s|
  {
    if |s| > 0 && (s[0] == '-' || s[0] == '+') then s[1..] else s
  }

  /** `parseInt(s, 10)`: an optional sign, then as many digits as there are;
      None (NaN) when no digit follows the sign. */
  function ParseInt(s: string): (r: Option<int>)
    ensures r.None? <==> LeadingDigits(Unsigned(s)) == []
  {
    var d := LeadingDigits(Unsigned(s));
    if d == [] then None
    else Some(if IsNegative(s) then -(DigitsValue(d) as int) else DigitsValue(d))
  }

  /** The index of the first '.', or |s| when there is none. */
  function DotIndex(s: string): (k: nat)
    ensures k <= |s|
    ensures forall j :: 0 <= j < k ==> s[j] != '.'
    ensures k < |s| ==> s[k] == '.'
  {
    if s == [] || s[0] == '.' then 0 else 1 + DotIndex(s[1..])
  }

  /** The value of the digits after a decimal point: "5" is 0.5, "05" is 0.05. */
  function FractionValue(frac: string): real
    requires AllDigits(frac)
  {
    DigitsValue(frac) as real / Pow10(|frac|) as real
  }

  /** `Number(s)` for a non-empty string in plain decimal notation: an optional
      sign, digits, and an optional fractional part after a '.', with at least
      one digit in all. Any other text is None (NaN). */
  function ParseDecimal(s: string): Option<real> {
    var body := Unsigned(s);
    var k := DotIndex(body);
    var whole := body[..k];
    var frac := if k < |body| then body[k + 1..] else "";
    if AllDigits(whole) && AllDigits(frac) && |whole| + |frac| > 0 then
      var magnitude := DigitsValue(whole) as real + FractionValue(frac);
      Some(if IsNegative(s) then -magnitude else magnitude)
    else
      None
  }

  lemma LeadingDigitsOfDigits(s: string)
    requires AllDigits(s)
    ensures LeadingDigits(s) == s
  {
  }

  lemma DotIndexOfDigits(s: string)
    requires AllDigits(s)
    ensures DotIndex(s) == |s|
  {
  }

  /** `parseInt` reads an optional '-' and a non-empty run of digits as its value. */
  lemma ParseIntOfDigits(s: string, digits: string)
    requires AllDigits(digits) && |digits| > 0
    requires s == digits || s == "-" + digits
    ensures ParseInt(s) == Some(if s == digits then DigitsValue(digits) else -(DigitsValue(digits) as int))
  {
    assert IsDigit(digits[0]);
    assert Unsigned(s) == digits;
    assert IsNegative(s) <==> s != digits;
    LeadingDigitsOfDigits(digits);
  }

  /** `Number` reads an optional '-' and a non-empty run of digits as its value. */
  lemma ParseDecimalOfDigits(s: string, digits: string)
    requires AllDigits(digits) && |digits| > 0
    requires s == digits || s == "-" + digits
    ensures ParseDecimal(s) == Some(if s == digits then DigitsValue(digits) as real else -(DigitsValue(digits) as real))
  {
    assert IsDigit(digits[0]);
    var body := Unsigned(s);
    assert body == digits;
    DotIndexOfDigits(digits);
    var k := DotIndex(body);
    assert k == |body|;
    assert body[..k] == digits;
    var frac: string := "";
    assert FractionValue(frac) == 0.0;
    var magnitude := DigitsValue(digits) as real + FractionValue(frac);
    assert magnitude == DigitsValue(digits) as real;
    assert IsNegative(s) <==> s != digits;
  }

  lemma DotIndexAt(s: string, k: nat)
    requires k < |s| && s[k] == '.'
    requires forall j :: 0 <= j < k ==> s[j] != '.'
    ensures DotIndex(s) == k
  {
  }

  /** How `whole + "." + frac` divides at its point. */
  lemma PointParts(s: string, whole: string, frac: string)
    requires AllDigits(whole) && |whole| > 0
    requires s == whole + "." + frac
    ensures Unsigned(s) == s && !IsNegative(s)
    ensures DotIndex(s) == |whole| < |s|
    ensures s[..|whole|] == whole && s[|whole| + 1..] == frac
  {
    assert IsDigit(whole[0]);
    assert s[0] == whole[0];
    assert forall j :: 0 <= j < |whole| ==> s[j] == whole[j];
    DotIndexAt(s, |whole|);
  }

  /** `Number` reads digits, a '.' and digits as the whole part plus the
      fraction. */
  lemma ParseDecimalOfPoint(s: string, whole: string, frac: string)
    requires AllDigits(whole) && AllDigits(frac) && |whole| > 0
    requires s == whole + "." + frac
    ensures ParseDecimal(s) == Some(DigitsValue(whole) as real + FractionValue(frac))
  {
    PointParts(s, whole, frac);
  }

  /** Reading back the decimal text of a whole number gives the number, both
      through `parseInt` and through `Number`. */
  lemma IntTextRoundTrip(k: int)
    ensures ParseInt(IntText(k)) == Some(k)
    ensures ParseDecimal(IntText(k)) == Some(k as real)
  {
    var n: nat := if k < 0 then -k else k;
    var digits := NatText(n);
    var t := IntText(k);
    NatTextValue(n);
    if k < 0 {
      assert t == "-" + digits;
      ParseIntOfDigits(t, digits);
      ParseDecimalOfDigits(t, digits);
      assert t != digits;
    } else {
      assert t == digits;
      ParseIntOfDigits(t, digits);
      ParseDecimalOfDigits(t, digits);
    }
  }
}
