/** Amounts as decimal text. The model counts money in integer cents; this
    module reads the decimal numerals a number input or a JSON body carries
    and writes a cents value the way JavaScript's `Number.prototype.toString`
    does, so that the server can re-read what the client sends. */
module Numerals {
  import opened Wrappers

  predicate IsDigit(c: char) {
    '0' <= c <= '9'
  }

  predicate AllDigits(s: string) {
    forall i :: 0 <= i < |s| ==> IsDigit(s[i])
  }

  function DigitValue(c: char): nat
    requires IsDigit(c)
  {
    (c as int) - ('0' as int)
  }

  function Digit(d: nat): (c: char)
    requires d < 10
    ensures IsDigit(c) && DigitValue(c) == d
  {
    (('0' as int) + d) as char
  }

  /** The value of a run of decimal digits, most significant first. */
  function DigitsValue(s: string): nat
    requires AllDigits(s)
  {
    if s == [] then 0 else 10 * DigitsValue(s[..|s| - 1]) + DigitValue(s[|s| - 1])
  }

  /** The shortest decimal numeral of `n`. */
  function Decimal(n: nat): (s: string)
    ensures |s| > 0 && AllDigits(s)
  {
    if n < 10 then [Digit(n)] else Decimal(n / 10) + [Digit(n % 10)]
  }

  lemma {:induction false} DecimalRoundTrip(n: nat)
    ensures DigitsValue(Decimal(n)) == n
  {
    if n >= 10 {
      var s := Decimal(n);
      DecimalRoundTrip(n / 10);
      assert s[..|s| - 1] == Decimal(n / 10);
    }
  }

  /** A non-negative numeral with at most two fraction digits, in cents:
      `12`, `12.5` and `12.50` all read as 1250. */
  function ParseUnsignedCents(s: string): Option<nat> {
    if |s| > 0 && AllDigits(s) then
      Some(100 * DigitsValue(s))
    else if |s| >= 3 && s[|s| - 2] == '.' && AllDigits(s[..|s| - 2]) && IsDigit(s[|s| - 1]) then
      Some(100 * DigitsValue(s[..|s| - 2]) + 10 * DigitValue(s[|s| - 1]))
    else if |s| >= 4 && s[|s| - 3] == '.' && AllDigits(s[..|s| - 3])
         && IsDigit(s[|s| - 2]) && IsDigit(s[|s| - 1]) then
      Some(100 * DigitsValue(s[..|s| - 3]) + 10 * DigitValue(s[|s| - 2]) + DigitValue(s[|s| - 1]))
    else
      None
  }

  /** The number a numeral denotes, in cents, or None when the text is not a
      numeral. Stands for `parseFloat`/`isNaN` on the client, for
      express-validator's `isFloat` and for Mongoose's cast to Number. */
  function ParseCents(s: string): Option<int> {
    if |s| > 0 && s[0] == '-' then
      match ParseUnsignedCents(s[1..])
      case Some(v) => Some(-(v as int))
      case None => None
    else
      match ParseUnsignedCents(s)
      case Some(v) => Some(v as int)
      case None => None
  }

  /** `Number.prototype.toString` of `cents / 100`: no trailing zeros in the
      fraction and no fraction at all for whole amounts (`12`, `12.5`, `12.05`). */
  function ShowNumber(cents: int): string {
    var a := if cents < 0 then -cents else cents;
    var whole := Decimal(a / 100);
    var frac := a % 100;
    var body :=
      if frac == 0 then whole
      else if frac % 10 == 0 then whole + ['.', Digit(frac / 10)]
      else whole + ['.', Digit(frac / 10), Digit(frac % 10)];
    if cents < 0 then "-" + body else body
  }

  lemma UnsignedRoundTrip(a: nat)
    ensures ParseUnsignedCents(ShowNumber(a)) == Some(a)
  {
    var whole := Decimal(a / 100);
    var frac := a % 100;
    DecimalRoundTrip(a / 100);
    if frac == 0 {
      assert ShowNumber(a) == whole;
    } else if frac % 10 == 0 {
      var s := whole + ['.', Digit(frac / 10)];
      assert ShowNumber(a) == s;
      assert !IsDigit(s[|s| - 2]);
      assert s[..|s| - 2] == whole;
    } else {
      var s := whole + ['.', Digit(frac / 10), Digit(frac % 10)];
      assert ShowNumber(a) == s;
      assert !IsDigit(s[|s| - 3]);
      assert s[|s| - 2] != '.';
      assert s[..|s| - 3] == whole;
    }
  }

  /** Reading back what `toString` wrote gives the same amount. */
  lemma ShowNumberRoundTrip(cents: int)
    ensures ParseCents(ShowNumber(cents)) == Some(cents)
  {
    if cents < 0 {
      UnsignedRoundTrip(-cents);
      var s := ShowNumber(cents);
      assert s[1..] == ShowNumber(-cents);
    } else {
      UnsignedRoundTrip(cents);
      assert IsDigit(ShowNumber(cents)[0]);
    }
  }
}
