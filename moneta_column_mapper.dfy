/** The column mapper that stores a Moneta `FastMoney` as a `BigDecimal`
    column in one configured currency, and reads `FastMoney` from strings of
    the form "<currency code> <long amount>". */
module MonetaColumnMapper {
  import opened Results
  import opened JavaLang
  import opened JavaNumbers

  /** A currency, known by its currency code. */
  datatype CurrencyUnit = CurrencyUnit(currencyCode: string)

  /** A `BigDecimal`: the value `unscaledValue * 10^(-scale)`. */
  datatype BigDecimal = BigDecimal(unscaledValue: int, scale: int)

  /** A monetary amount: its number and its currency. */
  datatype MonetaryAmount = MonetaryAmount(number: BigDecimal, currency: CurrencyUnit)

  /** `Monetary.getCurrency`: the currency registered for a code, or None
      where the library throws `UnknownCurrencyException`. */
  type CurrencyRegistry = string -> Option<CurrencyUnit>

  /** The message of the exception thrown for a value in another currency. */
  function CurrencyMismatch(expected: CurrencyUnit, actual: CurrencyUnit): Throwable
  {
    IllegalState("Expected currency " + expected.currencyCode + " but was " + actual.currencyCode)
  }

  /** The string form `fromNonNullString` reads: a code, one space, a `long`. */
  function AmountString(currencyCode: string, amount: int): string
  {
    currencyCode + " " + LongToString(amount)
  }

  class BigDecimalColumnFastMoneyMapper {
    /** The configured currency; null until `setCurrencyUnit` is called. */
    var currencyUnit: Option<CurrencyUnit>

    constructor ()
      ensures currencyUnit == None
    {
      currencyUnit := None;
    }

    /** `toNonNullValue`: the amount's number, provided the amount is in the
        configured currency. */
    function ToNonNullValue(value: MonetaryAmount): (r: Result<BigDecimal, Throwable>)
      reads this
      ensures currencyUnit.None? ==> r == Failure(NullPointer)
      ensures currencyUnit.Some? ==> (r.Success? <==> value.currency == currencyUnit.value)
      ensures currencyUnit.Some? && r.Failure? ==> r.error == CurrencyMismatch(currencyUnit.value, value.currency)
      ensures r.Success? ==> r.value == value.number
    {
      match currencyUnit
      case None => Failure(NullPointer)
      case Some(expected) =>
        if expected != value.currency then Failure(CurrencyMismatch(expected, value.currency))
        else Success(value.number)
    }

    /** `fromNonNullValue`: an amount of `val` in the configured currency,
        which `toNonNullValue` turns back into `val`. */
    function FromNonNullValue(val: BigDecimal): (r: Result<MonetaryAmount, Throwable>)
      reads this
      ensures r.Failure? <==> currencyUnit.None?
      ensures r.Failure? ==> r.error == NullPointer
      ensures r.Success? ==> r.value.currency == currencyUnit.value && r.value.number == val
      ensures r.Success? ==> ToNonNullValue(r.value) == Success(val)
    {
      match currencyUnit
      case None => Failure(NullPointer)
      case Some(c) => Success(MonetaryAmount(val, c))
    }

    /** `fromNonNullString`: the text before the first space names the
        currency, everything after it is the amount, read by `Long.parseLong`
        before the currency is looked up. */
    function FromNonNullString(s: string, getCurrency: CurrencyRegistry): (r: Result<MonetaryAmount, Throwable>)
      ensures ' ' !in s ==> r == Failure(StringIndexOutOfBounds)
      ensures ' ' in s ==>
        var sep := IndexOf(s, ' ');
        var code, amount := s[..sep], s[sep + 1..];
        && ' ' !in code
        && (r.Success? <==> ParseLong(amount).Success? && getCurrency(code).Some?)
        && (ParseLong(amount).Failure? ==> r == Failure(NumberFormat(amount)))
        && (ParseLong(amount).Success? && getCurrency(code).None? ==> r == Failure(UnknownCurrency(code)))
        && (r.Success? ==> r.value == MonetaryAmount(BigDecimal(ParseLong(amount).value, 0), getCurrency(code).value))
    {
      var separator := IndexOf(s, ' ');
      var currency :- Substring(s, 0, separator);
      // `substring(separator + 1)` cannot throw once `substring(0, separator)` has not
      var value := s[separator + 1..];
      var number :- ParseLong(value);
      match getCurrency(currency)
      case None => Failure(UnknownCurrency(currency))
      case Some(unit) => Success(MonetaryAmount(BigDecimal(number, 0), unit))
    }

    /** `setCurrencyUnit`: replaces the configured currency. */
    method SetCurrencyUnit(unit: Option<CurrencyUnit>)
      modifies this
      ensures currencyUnit == unit
    {
      currencyUnit := unit;
    }
  }

  /** `fromNonNullString` reads back every string made of a space-free
      registered currency code, one space and the decimal text of a `long`. */
  lemma FromAmountString(
    m: BigDecimalColumnFastMoneyMapper, currencyCode: string, amount: int, getCurrency: CurrencyRegistry)
    requires ' ' !in currencyCode
    requires LONG_MIN <= amount <= LONG_MAX
    requires getCurrency(currencyCode).Some?
    ensures m.FromNonNullString(AmountString(currencyCode, amount), getCurrency) ==
      Success(MonetaryAmount(BigDecimal(amount, 0), getCurrency(currencyCode).value))
  {
    var s := AmountString(currencyCode, amount);
    assert s[..|currencyCode|] == currencyCode;
    IndexOfAt(s, ' ', |currencyCode|);
    assert s[|currencyCode| + 1..] == LongToString(amount);
    ParseLongOfToString(amount);
  }

  /** Only the first space separates: a later space stays in the amount text,
      which `Long.parseLong` then rejects. */
  lemma LaterSpaceStaysInAmount(
    m: BigDecimalColumnFastMoneyMapper, currencyCode: string, amount: string, getCurrency: CurrencyRegistry)
    requires ' ' !in currencyCode && ' ' in amount
    ensures m.FromNonNullString(currencyCode + " " + amount, getCurrency) == Failure(NumberFormat(amount))
  {
    var s := currencyCode + " " + amount;
    assert s[..|currencyCode|] == currencyCode;
    IndexOfAt(s, ' ', |currencyCode|);
    assert s[|currencyCode| + 1..] == amount;
    var k :| 0 <= k < |amount| && amount[k] == ' ';
    assert !IsDigit(amount[k]);
    if |amount| > 0 && (amount[0] == '-' || amount[0] == '+') {
      assert k > 0;
      assert amount[1..][k - 1] == ' ';
    }
  }
}
