/** Monetary amounts as whole cents, and how JavaScript prints them. */
module Money {
  import opened Text

  /** An amount of money in cents (JavaScript holds it as a binary floating-point number). */
  type Cents = int

  /** String(x) for the JavaScript number x = c / 100: no trailing zeros after the point. */
  function AmountText(c: Cents): string {
    var m: nat := if c < 0 then -c else c;
    var whole := Decimal(m / 100);
    var cents := m % 100;
    var fraction :=
      if cents == 0 then ""
      else if cents % 10 == 0 then "." + [DigitChar(cents / 10)]
      else "." + [DigitChar(cents / 10), DigitChar(cents % 10)];
    (if c < 0 then "-" else "") + whole + fraction
  }

  /** The printed amount is made of digits, a '.' and a leading '-' only, so it is a plain CSV cell. */
  lemma AmountTextPlain(c: Cents)
    ensures forall i :: 0 <= i < |AmountText(c)| ==>
              IsDigit(AmountText(c)[i]) || AmountText(c)[i] == '.' || AmountText(c)[i] == '-'
    ensures ',' !in AmountText(c) && '\n' !in AmountText(c)
  {
  }

  /** A whole amount of at least zero prints as its number of units, with no point and no fraction. */
  lemma WholeAmountText(c: Cents)
    requires c >= 0 && c % 100 == 0
    ensures AmountText(c) == Decimal(c / 100)
  {
    assert AmountText(c) == "" + Decimal(c / 100) + "";
  }
}
