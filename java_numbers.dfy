/** Decimal text of integers as Java writes it (`"" + i`, `Long.toString`) and
    reads it (`Long.parseLong`, radix 10). */
module JavaNumbers {
  import opened Results
  import opened JavaLang

  /** The range of a Java `long`. */
  const LONG_MIN: int := -0x8000_0000_0000_0000
  const LONG_MAX: int := 0x7fff_ffff_ffff_ffff

  predicate IsDigit(c: char) { '0' <= c <= '9' }

  predicate AllDigits(s: string) { forall k :: 0 <= k < |s| ==> IsDigit(s[k]) }

  function DigitValue(c: char): (d: nat)
    requires IsDigit(c)
    ensures d < 10
  {
    (c as int) - ('0' as int)
  }

  function DigitChar(d: nat): (c: char)
    requires d < 10
    ensures IsDigit(c) && DigitValue(c) == d
  {
    (('0' as int) + d) as char
  }

  /** The decimal digits of `n`, most significant first, without leading zeros. */
  function DecimalString(n: nat): (r: string)
    ensures |r| >= 1 && AllDigits(r)
    ensures |r| > 1 ==> r[0] != '0'
  {
    if n < 10 then [DigitChar(n)] else DecimalString(n / 10) + [DigitChar(n % 10)]
  }

  /** The number a string of decimal digits denotes. */
  function DigitsValue(ds: string): nat
    requires AllDigits(ds)
  {
    if ds == [] then 0 else DigitsValue(ds[..|ds| - 1]) * 10 + DigitValue(ds[|ds| - 1])
  }

  /** `Long.toString(n)`, which `"" + n` also produces. */
  function LongToString(n: int): (r: string)
    ensures |r| >= 1
    ensures n < 0 <==> r[0] == '-'
  {
    if n < 0 then "-" + DecimalString(-n) else DecimalString(n)
  }

  /** `Long.parseLong(s)`: an optional '+' or '-', then at least one decimal
      digit, and a value inside the `long` range; anything else throws
      `NumberFormatException`. */
  function ParseLong(s: string): (r: Result<int, Throwable>)
    ensures r.Success? ==> LONG_MIN <= r.value <= LONG_MAX
    ensures r.Failure? ==> r.error == NumberFormat(s)
    ensures r.Success? ==> |s| >= 1 && (s[0] == '+' || s[0] == '-' || IsDigit(s[0]))
    ensures r.Success? && r.value < 0 ==> s[0] == '-'
  {
    if |s| == 0 then Failure(NumberFormat(s))
    else
      var signed := s[0] == '-' || s[0] == '+';
      var digits := if signed then s[1..] else s;
      if |digits| == 0 || !AllDigits(digits) then Failure(NumberFormat(s))
      else
        var m: int := DigitsValue(digits);
        var v := if s[0] == '-' then -m else m;
        if LONG_MIN <= v <= LONG_MAX then Success(v) else Failure(NumberFormat(s))
  }

  /** The digits of `n` denote `n`. */
  lemma {:induction false} DigitsValueOfDecimal(n: nat)
    ensures DigitsValue(DecimalString(n)) == n
  {
    if n >= 10 {
      var s := DecimalString(n);
      assert s[..|s| - 1] == DecimalString(n / 10);
      DigitsValueOfDecimal(n / 10);
    }
  }

  /** Different numbers have different decimal texts. */
  lemma DecimalStringInjective(a: nat, b: nat)
    ensures DecimalString(a) == DecimalString(b) ==> a == b
  {
    DigitsValueOfDecimal(a);
    DigitsValueOfDecimal(b);
  }

  /** `Long.parseLong` reads back every `long` that `Long.toString` writes. */
  lemma ParseLongOfToString(n: int)
    requires LONG_MIN <= n <= LONG_MAX
    ensures ParseLong(LongToString(n)) == Success(n)
  {
    var s := LongToString(n);
    if n < 0 {
      assert s[1..] == DecimalString(-n);
      DigitsValueOfDecimal(-n);
    } else {
      DigitsValueOfDecimal(n);
    }
  }
}
