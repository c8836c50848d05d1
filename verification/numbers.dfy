/**
 * Decimal text of the numbers a ticket record stores: `String(n)` for the
 * billed hours, `String(x)` for the two money amounts, and `Number(text)`
 * for reading them back.  Money is held as a whole number of cents and
 * written the way JavaScript writes the number cents / 100: no trailing
 * zeros after the point, and no point at all for whole amounts.
 */
module Numbers {
  import opened Wrappers

  predicate IsDigit(c: char)
  {
    '0' <= c <= '9'
  }

  predicate IsDigits(s: string)
  {
    |s| > 0 && forall k :: 0 <= k < |s| ==> IsDigit(s[k])
  }

  function Digit(d: nat): (c: char)
    requires d < 10
    ensures IsDigit(c) && c as int - '0' as int == d
  {
    (d + '0' as int) as char
  }

  function DigitValue(c: char): nat
    requires IsDigit(c)
  {
    c as int - '0' as int
  }

  /** `String(n)` for a non-negative integer: its digits, most significant first, no leading zero. */
  function NatText(n: nat): (r: string)
    ensures IsDigits(r)
    ensures r[0] == '0' ==> n == 0
  {
    if n < 10 then [Digit(n)] else NatText(n / 10) + [Digit(n % 10)]
  }

  /** The value of a string of decimal digits. */
  function DigitsValue(s: string): nat
    requires forall k :: 0 <= k < |s| ==> IsDigit(s[k])
  {
    if s == [] then 0 else DigitsValue(s[..|s| - 1]) * 10 + DigitValue(s[|s| - 1])
  }

  /** `Number(text)` on a whole number: defined for a non-empty run of digits. */
  function ParseNat(s: string): (r: Option<nat>)
    ensures r.Some? <==> IsDigits(s)
  {
    if IsDigits(s) then Some(DigitsValue(s)) else None
  }

  lemma {:induction false} NatTextValue(n: nat)
    ensures DigitsValue(NatText(n)) == n
  {
    if n >= 10 {
      var t := NatText(n / 10) + [Digit(n % 10)];
      assert t[..|t| - 1] == NatText(n / 10);
      NatTextValue(n / 10);
    }
  }

  /** Reading back the text of a whole number gives that number. */
  lemma NatRoundTrip(n: nat)
    ensures ParseNat(NatText(n)) == Some(n)
  {
    NatTextValue(n);
  }

  /** The digits after the point for a number of cents below 100, trailing zeros dropped. */
  function FractionText(f: nat): (r: string)
    requires f < 100
  {
    if f == 0 then ""
    else if f % 10 == 0 then ['.', Digit(f / 10)]
    else ['.', Digit(f / 10), Digit(f % 10)]
  }

  /** `String(cents / 100)`. */
  function MoneyText(cents: nat): (r: string)
    ensures |r| > 0 && IsDigit(r[|r| - 1])
    ensures forall k :: 0 <= k < |r| ==> IsDigit(r[k]) || r[k] == '.'
  {
    NatText(cents / 100) + FractionText(cents % 100)
  }

  /**
   * `Number(text)` on the three shapes MoneyText writes: `12`, `12.5` and
   * `12.05`, read as a number of cents.
   */
  function ParseMoney(s: string): (r: Option<nat>)
  {
    if IsDigits(s) then
      Some(DigitsValue(s) * 100)
    else if |s| >= 3 && s[|s| - 2] == '.' && IsDigit(s[|s| - 1]) && IsDigits(s[..|s| - 2]) then
      Some(DigitsValue(s[..|s| - 2]) * 100 + DigitValue(s[|s| - 1]) * 10)
    else if |s| >= 4 && s[|s| - 3] == '.' && IsDigit(s[|s| - 2]) && IsDigit(s[|s| - 1])
            && IsDigits(s[..|s| - 3]) then
      Some(DigitsValue(s[..|s| - 3]) * 100 + DigitValue(s[|s| - 2]) * 10 + DigitValue(s[|s| - 1]))
    else
      None
  }

  /** Reading back the text of an amount gives the same number of cents. */
  lemma MoneyRoundTrip(cents: nat)
    ensures ParseMoney(MoneyText(cents)) == Some(cents)
  {
    var w, f := cents / 100, cents % 100;
    var n := NatText(w);
    var s := MoneyText(cents);
    NatTextValue(w);
    if f == 0 {
      assert s == n;
    } else if f % 10 == 0 {
      assert s[..|s| - 2] == n;
      assert !IsDigit(s[|s| - 2]);
    } else {
      assert s[..|s| - 3] == n;
      assert !IsDigit(s[|s| - 3]);
      assert !(s[|s| - 2] == '.');
    }
  }
}
