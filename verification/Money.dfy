/** Amounts and currencies (src/domain/money.py). */
module Money {
  import opened Base

  datatype Currency = RUB | USD | EUR

  /** What a caller may pass as an amount; a decimal is its integer coefficient and its exponent. */
  datatype AmountInput =
    | Float
    | Boolean
    | Integer(n: int)
    | Decimal(coefficient: int, exponent: int)
    | NotFinite
    | OtherType

  datatype MoneyError = InvalidMoney | InvalidCurrency | PrecisionExceeded

  datatype Money = Money(cents: int, currency: Currency)

  function Pow10(n: nat): (p: nat)
    ensures p >= 1
  {
    if n == 0 then 1 else 10 * Pow10(n - 1)
  }

  /** `quantize` raises when the result needs more than the 28 digits of the decimal context. */
  const CONTEXT_DIGITS: nat := 28

  function CurrencyText(c: Currency): string {
    match c case RUB => "RUB" case USD => "USD" case EUR => "EUR"
  }

  function ParseCurrency(text: string): Option<Currency> {
    if text == "RUB" then Some(RUB) else if text == "USD" then Some(USD)
    else if text == "EUR" then Some(EUR) else None
  }

  function Cents(coefficient: int, exponent: int): int
    requires exponent >= -2
  {
    coefficient * Pow10(exponent + 2)
  }

  /** The checks of `Money.__init__`, in their order. */
  function Create(amount: AmountInput, currency: string): Result<Money, MoneyError> {
    match amount
    case Boolean | Float => Err(InvalidMoney)
    case Integer(n) => CreateDecimal(n, 0, currency)
    case OtherType => Err(InvalidMoney)
    case NotFinite => Err(InvalidMoney)
    case Decimal(coefficient, exponent) => CreateDecimal(coefficient, exponent, currency)
  }

  function CreateDecimal(coefficient: int, exponent: int, currency: string): Result<Money, MoneyError> {
    if coefficient <= 0 then Err(InvalidMoney)
    else if exponent < -2 then Err(InvalidMoney)
    else if Cents(coefficient, exponent) >= Pow10(CONTEXT_DIGITS) then Err(PrecisionExceeded)
    else
      match ParseCurrency(currency)
      case None => Err(InvalidCurrency)
      case Some(c) => Ok(Money(Cents(coefficient, exponent), c))
  }

  /** The number an integer or finite decimal denotes. */
  function Denotes(amount: AmountInput): real
    requires amount.Integer? || amount.Decimal?
  {
    match amount
    case Integer(n) => n as real
    case Decimal(coefficient, exponent) =>
      if exponent >= 0 then (coefficient * Pow10(exponent)) as real
      else coefficient as real / Pow10(-exponent) as real
  }

  /** An accepted amount is a positive number of cents, and it is the number that was passed. */
  lemma CreateKeepsValue(amount: AmountInput, currency: string)
    requires Create(amount, currency).Ok?
    ensures amount.Integer? || amount.Decimal?
    ensures var money := Create(amount, currency).value;
            && 0 < money.cents < Pow10(CONTEXT_DIGITS)
            && money.cents as real == 100.0 * Denotes(amount)
            && CurrencyText(money.currency) == currency
  {
    match amount {
      case Integer(n) => DecimalKeepsValue(n, 0, currency);
      case Decimal(coefficient, exponent) => DecimalKeepsValue(coefficient, exponent, currency);
      case _ =>
    }
  }

  lemma DecimalAccepted(coefficient: int, exponent: int, currency: string)
    requires CreateDecimal(coefficient, exponent, currency).Ok?
    ensures coefficient > 0 && exponent >= -2
    ensures var money := CreateDecimal(coefficient, exponent, currency).value;
            money.cents == Cents(coefficient, exponent) < Pow10(CONTEXT_DIGITS)
            && CurrencyText(money.currency) == currency
  {
  }

  lemma DecimalKeepsValue(coefficient: int, exponent: int, currency: string)
    requires CreateDecimal(coefficient, exponent, currency).Ok?
    ensures var money := CreateDecimal(coefficient, exponent, currency).value;
            && 0 < money.cents < Pow10(CONTEXT_DIGITS)
            && money.cents as real == 100.0 * Denotes(Decimal(coefficient, exponent))
            && CurrencyText(money.currency) == currency
    ensures exponent == 0 ==> Denotes(Decimal(coefficient, exponent)) == coefficient as real
  {
    DecimalAccepted(coefficient, exponent, currency);
    CentsScale(coefficient, exponent);
    assert Pow10(0) == 1;
  }

  lemma WholeScale(coefficient: int, exponent: nat)
    ensures Cents(coefficient, exponent) == 100 * (coefficient * Pow10(exponent))
  {
    var p := Pow10(exponent);
    assert Pow10(exponent + 2) == 100 * p;
    assert coefficient * (100 * p) == 100 * (coefficient * p);
  }

  lemma SmallPowers()
    ensures Pow10(0) == 1 && Pow10(1) == 10 && Pow10(2) == 100
  {
  }

  lemma FractionScale(coefficient: int, exponent: int)
    requires exponent == -1 || exponent == -2
    ensures Cents(coefficient, exponent) as real == 100.0 * Denotes(Decimal(coefficient, exponent))
    ensures coefficient > 0 ==> Cents(coefficient, exponent) > 0
  {
    SmallPowers();
  }

  lemma WholeSign(coefficient: int, exponent: nat)
    requires coefficient > 0
    ensures coefficient * Pow10(exponent) > 0
  {
  }

  lemma CentsScale(coefficient: int, exponent: int)
    requires exponent >= -2
    ensures coefficient > 0 ==> Cents(coefficient, exponent) > 0
    ensures Cents(coefficient, exponent) as real == 100.0 * Denotes(Decimal(coefficient, exponent))
  {
    if exponent < 0 {
      FractionScale(coefficient, exponent);
    } else {
      WholeScale(coefficient, exponent);
      if coefficient > 0 {
        WholeSign(coefficient, exponent);
      }
      var whole := coefficient * Pow10(exponent);
      assert Denotes(Decimal(coefficient, exponent)) == whole as real;
    }
  }

  /** A positive number with at most two decimals. */
  predicate IsAmount(amount: AmountInput) {
    || (amount.Integer? && amount.n > 0)
    || (amount.Decimal? && amount.coefficient > 0 && amount.exponent >= -2)
  }

  /** Exactly which amounts are accepted, and what the others are refused with, in this order: no positive
      number of at most two decimals (floats and booleans never are one), too large for the decimal
      context, an unknown currency. */
  lemma AcceptanceRule(amount: AmountInput, currency: string)
    ensures !IsAmount(amount) ==> Create(amount, currency) == Err(InvalidMoney)
    ensures IsAmount(amount) ==>
              var fits := 100.0 * Denotes(amount) < Pow10(28) as real;
              var known := currency == "RUB" || currency == "USD" || currency == "EUR";
              && (!fits ==> Create(amount, currency) == Err(PrecisionExceeded))
              && (fits && !known ==> Create(amount, currency) == Err(InvalidCurrency))
              && (fits && known ==> Create(amount, currency).Ok?)
  {
    if IsAmount(amount) {
      var coefficient, exponent := if amount.Integer? then amount.n else amount.coefficient,
                                   if amount.Integer? then 0 else amount.exponent;
      SameNumber(amount, coefficient, exponent);
      DecimalRule(coefficient, exponent, currency, Denotes(amount));
    }
  }

  lemma DecimalRule(coefficient: int, exponent: int, currency: string, number: real)
    requires coefficient > 0 && exponent >= -2 && number == Denotes(Decimal(coefficient, exponent))
    ensures var fits := 100.0 * number < Pow10(28) as real;
            var known := currency == "RUB" || currency == "USD" || currency == "EUR";
            var r := CreateDecimal(coefficient, exponent, currency);
            && (!fits ==> r == Err(PrecisionExceeded))
            && (fits && !known ==> r == Err(InvalidCurrency))
            && (fits && known ==> r.Ok?)
  {
    CentsScale(coefficient, exponent);
    SameOrder(Cents(coefficient, exponent), Pow10(28), 100.0 * number);
  }

  lemma SameOrder(cents: int, limit: int, x: real)
    requires cents as real == x
    ensures cents < limit <==> x < limit as real
  {
  }

  lemma SameNumber(amount: AmountInput, coefficient: int, exponent: int)
    requires amount == Decimal(coefficient, exponent) || (amount == Integer(coefficient) && exponent == 0)
    ensures Denotes(amount) == Denotes(Decimal(coefficient, exponent))
  {
    assert Pow10(0) == 1;
  }

  /** Two accepted amounts are equal money exactly when they denote one number, whatever their
      spelling (10, 10.0 and 1E+1 are the same), in one currency. */
  lemma EqualExactlyWhenSameNumber(a: AmountInput, b: AmountInput, currency: string, currency': string)
    requires Create(a, currency).Ok? && Create(b, currency').Ok?
    ensures (a.Integer? || a.Decimal?) && (b.Integer? || b.Decimal?)
    ensures Create(a, currency) == Create(b, currency') <==> Denotes(a) == Denotes(b) && currency == currency'
  {
    CreateKeepsValue(a, currency);
    CreateKeepsValue(b, currency');
    var x, y := Create(a, currency).value, Create(b, currency').value;
    SameCents(x.cents, y.cents, Denotes(a), Denotes(b));
  }

  lemma SameCents(x: int, y: int, a: real, b: real)
    requires x as real == 100.0 * a && y as real == 100.0 * b
    ensures x == y <==> a == b
  {
  }

  /** Stored cents read back as the same money: a row amount always has two decimals. */
  lemma StoredAmountReadsBack(money: Money)
    requires 0 < money.cents < Pow10(CONTEXT_DIGITS)
    ensures Create(Decimal(money.cents, -2), CurrencyText(money.currency)) == Ok(money)
  {
    assert Pow10(0) == 1;
    assert Cents(money.cents, -2) == money.cents * 1;
  }
}
