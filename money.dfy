/**
 * The money helpers of src/utils/money.ts. An amount of money is a whole
 * number of minor units (cents) in one of the three supported currencies,
 * all of which have two decimals. Arithmetic on amounts of different
 * currencies fails, as the money library's does. Numbers are exact reals;
 * the host's `toFixed` rendering is a parameter.
 */
module Money {
  import opened Wrappers
  import opened Text
  import opened Numbers
  import Lists

  datatype Currency = MXN | USD | EUR

  /** The supported currency a code names, if any. */
  function CurrencyOf(code: string): (c: Option<Currency>)
    ensures c.Some? <==> code in ["MXN", "USD", "EUR"]
    ensures code == "MXN" ==> c == Some(MXN)
    ensures code == "USD" ==> c == Some(USD)
    ensures code == "EUR" ==> c == Some(EUR)
  {
    if code == "MXN" then Some(MXN) else if code == "USD" then Some(USD) else if code == "EUR" then Some(EUR) else None
  }

  datatype Money = Money(cents: int, currency: Currency)

  datatype MoneyError =
    | UnsupportedCurrency(code: string)
    | InvalidAmount(given: NumberOrText)
    | CurrencyMismatch

  /** `Math.round(x)`: the nearest integer, halves rounded up. */
  function Round(x: real): (n: int)
    ensures x - 0.5 < n as real <= x + 0.5
  {
    (x + 0.5).Floor
  }

  /**
   * `createMoney(amount, currencyCode)`: an unsupported code is refused
   * first, then an amount that is not a number (text read with
   * `parseFloat`); otherwise the amount becomes cents, rounded.
   */
  function CreateMoney(amount: NumberOrText, code: string): (r: Result<Money, MoneyError>)
    ensures CurrencyOf(code).None? ==> r == Err(UnsupportedCurrency(code))
    ensures CurrencyOf(code).Some? && ToNumber(amount).NaN? ==> r == Err(InvalidAmount(amount))
    ensures r.Ok? <==> CurrencyOf(code).Some? && ToNumber(amount).Finite?
    ensures r.Ok? ==>
      && r.value.currency == CurrencyOf(code).value
      && ToNumber(amount).value * 100.0 - 0.5 < r.value.cents as real <= ToNumber(amount).value * 100.0 + 0.5
  {
    match CurrencyOf(code)
    case None => Err(UnsupportedCurrency(code))
    case Some(c) =>
      match ToNumber(amount)
      case NaN => Err(InvalidAmount(amount))
      case Finite(v) => Ok(Money(Round(v * 100.0), c))
  }

  /** `moneyToNumber(amount)`: the amount in major units. */
  function MoneyToNumber(m: Money): (v: real)
    ensures v * 100.0 == m.cents as real
  {
    m.cents as real / 100.0
  }

  /** An amount that is a whole number of cents is stored exactly, and reads back as itself. */
  lemma CreateMoneyRoundTrip(m: Money, code: string)
    requires CurrencyOf(code) == Some(m.currency)
    ensures CreateMoney(NumberValue(Finite(MoneyToNumber(m))), code) == Ok(m)
  {
    assert MoneyToNumber(m) * 100.0 == m.cents as real;
  }

  /** The error messages thrown. */
  function ErrorMessage(e: MoneyError): (msg: string)
    ensures e.UnsupportedCurrency? ==> msg == "Moneda no soportada: " + e.code
  {
    match e
    case UnsupportedCurrency(code) => "Moneda no soportada: " + code
    case InvalidAmount(TextValue(s)) => "Cantidad inválida: " + s
    case InvalidAmount(NumberValue(_)) => "Cantidad inválida: NaN"
    case CurrencyMismatch => "Objects must have the same currency."
  }

  // --------------------------------------------------------------- arithmetic

  /** `addMoney(a, b)`. */
  function AddMoney(a: Money, b: Money): (r: Result<Money, MoneyError>)
    ensures r.Ok? <==> a.currency == b.currency
    ensures r.Ok? ==> r.value.cents == a.cents + b.cents && r.value.currency == a.currency
    ensures r.Err? ==> r.error == CurrencyMismatch
  {
    if a.currency == b.currency then Ok(Money(a.cents + b.cents, a.currency)) else Err(CurrencyMismatch)
  }

  /** `subtractMoney(a, b)`. */
  function SubtractMoney(a: Money, b: Money): (r: Result<Money, MoneyError>)
    ensures r.Ok? <==> a.currency == b.currency
    ensures r.Ok? ==> r.value.cents == a.cents - b.cents && r.value.currency == a.currency
    ensures r.Err? ==> r.error == CurrencyMismatch
  {
    if a.currency == b.currency then Ok(Money(a.cents - b.cents, a.currency)) else Err(CurrencyMismatch)
  }

  /** Subtracting what was added gives back the starting amount. */
  lemma SubtractUndoesAdd(a: Money, b: Money)
    requires a.currency == b.currency
    ensures AddMoney(a, b).Ok? && SubtractMoney(AddMoney(a, b).value, b) == Ok(a)
  {
  }

  /** The total number of cents in a list, whatever the currencies. */
  function TotalCents(amounts: seq<Money>): int {
    if amounts == [] then 0 else TotalCents(amounts[..|amounts| - 1]) + amounts[|amounts| - 1].cents
  }

  predicate AllIn(amounts: seq<Money>, c: Currency) {
    forall k :: 0 <= k < |amounts| ==> amounts[k].currency == c
  }

  /** `amounts.reduce(add)`: the left fold of additions, failing at the first amount in another currency. */
  function FoldAdd(amounts: seq<Money>): (r: Result<Money, MoneyError>)
    requires amounts != []
    ensures r.Ok? <==> AllIn(amounts, amounts[0].currency)
    ensures r.Ok? ==> r.value == Money(TotalCents(amounts), amounts[0].currency)
    ensures r.Err? ==> r.error == CurrencyMismatch
  {
    if |amounts| == 1 then Ok(amounts[0])
    else
      var init := amounts[..|amounts| - 1];
      assert init[0] == amounts[0];
      match FoldAdd(init)
      case Err(e) => Err(e)
      case Ok(acc) => AddMoney(acc, amounts[|amounts| - 1])
  }

  /** `sumMoney(amounts)`: zero pesos for an empty list, otherwise the fold. */
  function SumMoney(amounts: seq<Money>): (r: Result<Money, MoneyError>)
    ensures amounts == [] ==> r == Ok(Money(0, MXN))
    ensures amounts != [] ==> (r.Ok? <==> AllIn(amounts, amounts[0].currency))
    ensures r.Ok? ==> r.value.cents == TotalCents(amounts)
  {
    if amounts == [] then
      CreateMoneyRoundTrip(Money(0, MXN), "MXN");
      CreateMoney(NumberValue(Finite(0.0)), "MXN")
    else FoldAdd(amounts)
  }

  /** Summing the concatenation of two lists in one currency adds their sums. */
  lemma {:induction false} SumMoneyAppend(xs: seq<Money>, ys: seq<Money>, c: Currency)
    requires xs != [] && ys != [] && AllIn(xs, c) && AllIn(ys, c)
    ensures SumMoney(xs + ys).Ok? && SumMoney(xs).Ok? && SumMoney(ys).Ok?
    ensures SumMoney(xs + ys).value.cents == SumMoney(xs).value.cents + SumMoney(ys).value.cents
    decreases |ys|
  {
    assert AllIn(xs + ys, c);
    TotalCentsAppend(xs, ys);
  }

  lemma {:induction false} TotalCentsAppend(xs: seq<Money>, ys: seq<Money>)
    ensures TotalCents(xs + ys) == TotalCents(xs) + TotalCents(ys)
    decreases |ys|
  {
    if ys != [] {
      var init := ys[..|ys| - 1];
      assert (xs + ys)[..|xs + ys| - 1] == xs + init;
      TotalCentsAppend(xs, init);
    } else {
      assert xs + ys == xs;
    }
  }

  // ------------------------------------------------------------ comparisons

  /** `calculatePercentage(amount, total)`: 0 against a zero total, otherwise the share in percent. */
  function CalculatePercentage(amount: Money, total: Money): (r: real)
    ensures total.cents == 0 ==> r == 0.0
    ensures total.cents != 0 ==> r * MoneyToNumber(total) == MoneyToNumber(amount) * 100.0
  {
    var amountNum := MoneyToNumber(amount);
    var totalNum := MoneyToNumber(total);
    if totalNum == 0.0 then 0.0 else amountNum / totalNum * 100.0
  }

  /** A part between nothing and the whole of a positive total is between 0 and 100 percent of it. */
  lemma PercentageOfPart(amount: Money, total: Money)
    requires 0 <= amount.cents <= total.cents && total.cents > 0
    ensures 0.0 <= CalculatePercentage(amount, total) <= 100.0
  {
    var a := MoneyToNumber(amount);
    var t := MoneyToNumber(total);
    var r := CalculatePercentage(amount, total);
    assert r * t == a * 100.0;
    assert 0.0 <= a <= t && t > 0.0;
  }

  /** `isPositive(amount)`. */
  predicate IsPositive(m: Money): (b: bool)
    ensures b <==> m.cents > 0
  {
    MoneyToNumber(m) > 0.0
  }

  /** `isNegative(amount)`. */
  predicate IsNegative(m: Money): (b: bool)
    ensures b <==> m.cents < 0
  {
    MoneyToNumber(m) < 0.0
  }

  /** `isZero(amount)`. */
  predicate IsZero(m: Money): (b: bool)
    ensures b <==> m.cents == 0
  {
    MoneyToNumber(m) == 0.0
  }

  /** Every amount is exactly one of positive, negative and zero, as its cents are. */
  lemma SignTrichotomy(m: Money)
    ensures IsPositive(m) <==> m.cents > 0
    ensures IsNegative(m) <==> m.cents < 0
    ensures IsZero(m) <==> m.cents == 0
    ensures Count(IsPositive(m)) + Count(IsNegative(m)) + Count(IsZero(m)) == 1
  {
    assert MoneyToNumber(m) * 100.0 == m.cents as real;
  }

  // ---------------------------------------------------------- compact display

  /** The rendering has only digits, a decimal point and a minus sign, as `toFixed` writes finite numbers. */
  predicate NumericRendering(s: string) {
    forall k :: 0 <= k < |s| ==> IsDigit(s[k]) || s[k] == '.' || s[k] == '-'
  }

  /** The unit letter for a magnitude, or none below a thousand. */
  function CompactSuffix(absAmount: real): (suffix: string)
    ensures absAmount >= 1000000000.0 ==> suffix == "B"
    ensures 1000000.0 <= absAmount < 1000000000.0 ==> suffix == "M"
    ensures 1000.0 <= absAmount < 1000000.0 ==> suffix == "K"
    ensures absAmount < 1000.0 ==> suffix == ""
  {
    if absAmount >= 1000000000.0 then "B" else if absAmount >= 1000000.0 then "M" else if absAmount >= 1000.0 then "K" else ""
  }

  /**
   * `formatMoneyCompact(amount)`: "$0" when the amount is not a number;
   * otherwise a minus sign for negative amounts, "$", the magnitude scaled
   * to its unit and rendered with one decimal (two below a thousand), and
   * the unit letter.
   */
  function FormatMoneyCompact(amount: NumberOrText, toFixed: (real, nat) -> string): (r: string)
    ensures ToNumber(amount).NaN? ==> r == "$0"
    ensures ToNumber(amount).Finite? && ToNumber(amount).value < 0.0 ==> |r| >= 2 && r[..2] == "-$"
    ensures ToNumber(amount).Finite? && ToNumber(amount).value >= 0.0 ==> |r| >= 1 && r[0] == '$'
    ensures ToNumber(amount).Finite? ==> |r| >= 1 && r[|r| - |CompactSuffix(Abs(ToNumber(amount).value))|..] == CompactSuffix(Abs(ToNumber(amount).value))
  {
    match ToNumber(amount)
    case NaN => "$0"
    case Finite(v) =>
      var absAmount := Abs(v);
      var sign := if v < 0.0 then "-" else "";
      if absAmount >= 1000000000.0 then sign + "$" + toFixed(absAmount / 1000000000.0, 1) + "B"
      else if absAmount >= 1000000.0 then sign + "$" + toFixed(absAmount / 1000000.0, 1) + "M"
      else if absAmount >= 1000.0 then sign + "$" + toFixed(absAmount / 1000.0, 1) + "K"
      else sign + "$" + toFixed(absAmount, 2)
  }

  /**
   * With a numeric rendering, the last character tells the magnitude: a
   * unit letter exactly from a thousand up, and which one by the thresholds.
   */
  lemma CompactSuffixIffMagnitude(v: real, toFixed: (real, nat) -> string)
    requires forall x: real, d: nat :: NumericRendering(toFixed(x, d))
    ensures var r := FormatMoneyCompact(NumberValue(Finite(v)), toFixed);
      && (r[|r| - 1] == 'B' <==> Abs(v) >= 1000000000.0)
      && (r[|r| - 1] == 'M' <==> 1000000.0 <= Abs(v) < 1000000000.0)
      && (r[|r| - 1] == 'K' <==> 1000.0 <= Abs(v) < 1000000.0)
  {
    var r := FormatMoneyCompact(NumberValue(Finite(v)), toFixed);
    if Abs(v) < 1000.0 {
      var digits := toFixed(Abs(v), 2);
      assert NumericRendering(digits);
      if digits != [] {
        assert r[|r| - 1] == digits[|digits| - 1];
      }
    }
  }

  // ----------------------------------------------------------- currency info

  const Symbols := map["MXN" := "$", "USD" := "$", "EUR" := "€"]
  const Names := map["MXN" := "Peso Mexicano", "USD" := "Dólar Estadounidense", "EUR" := "Euro"]

  /** `getCurrencySymbol(code)`: "$" for pesos, dollars and anything unknown, "€" for euros. */
  function GetCurrencySymbol(code: string): (r: string)
    ensures code in Symbols ==> r == Symbols[code]
    ensures code !in Symbols ==> r == "$"
  {
    if code in Symbols && Symbols[code] != "" then Symbols[code] else "$"
  }

  /** `getCurrencyName(code)`: the Spanish name of a supported currency, an unknown code unchanged. */
  function GetCurrencyName(code: string): (r: string)
    ensures code in Names ==> r == Names[code]
    ensures code !in Names ==> r == code
  {
    if code in Names && Names[code] != "" then Names[code] else code
  }

  /** The currencies with a symbol and a name are the supported ones, and only the euro has its own symbol. */
  lemma CurrencyInfoCoversSupported(code: string)
    ensures code in Symbols <==> CurrencyOf(code).Some?
    ensures code in Names <==> CurrencyOf(code).Some?
    ensures GetCurrencySymbol(code) == "€" <==> code == "EUR"
  {
  }

  // ------------------------------------------------------------ form input

  predicate KeptInAmount(c: char) { IsDigit(c) || c == '.' || c == '-' }

  /** `input.replace(/[^\d.-]/g, '')`: keeps digits, points and minus signs, in order. */
  function CleanAmount(input: string): (r: string)
    ensures |r| <= |input|
    ensures forall k :: 0 <= k < |r| ==> KeptInAmount(r[k])
    ensures (forall k :: 0 <= k < |input| ==> KeptInAmount(input[k])) ==> r == input
    ensures |input| == 1 ==> r == (if KeptInAmount(input[0]) then input else [])
  {
    if input == [] then []
    else (if KeptInAmount(input[0]) then [input[0]] else []) + CleanAmount(input[1..])
  }

  /** Cleaning is the list filter that keeps digits, points and minus signs: the kept characters are the input's own, in the input's order. */
  lemma {:induction false} CleanAmountIsFilter(input: string)
    ensures CleanAmount(input) == Lists.Filter(input, KeptInAmount)
    decreases |input|
  {
    if input != [] {
      CleanAmountIsFilter(input[1..]);
    }
  }

  /** Cleaning splits over concatenation, so a separator or symbol anywhere in the input just disappears. */
  lemma {:induction false} CleanAmountAppend(a: string, b: string)
    ensures CleanAmount(a + b) == CleanAmount(a) + CleanAmount(b)
    decreases |a|
  {
    if a != [] {
      assert (a + b)[1..] == a[1..] + b;
      CleanAmountAppend(a[1..], b);
    } else {
      assert a + b == b;
    }
  }

  /**
   * `parseMoneyFromInput(input, currencyCode)`: null when the cleaned text
   * holds no number; otherwise the amount, which can still be refused for
   * its currency.
   */
  function ParseMoneyFromInput(input: string, code: string): (r: Result<Option<Money>, MoneyError>)
    ensures ParseFloat(CleanAmount(input)).NaN? ==> r == Ok(None)
    ensures ParseFloat(CleanAmount(input)).Finite? ==>
      r == (match CreateMoney(NumberValue(ParseFloat(CleanAmount(input))), code)
            case Ok(m) => Ok(Some(m))
            case Err(e) => Err(e))
  {
    var numericValue := ParseFloat(CleanAmount(input));
    if numericValue.NaN? then Ok(None)
    else
      match CreateMoney(NumberValue(numericValue), code)
      case Ok(m) => Ok(Some(m))
      case Err(e) => Err(e)
  }

  /** A currency sign in front of digits is cleaned away. */
  lemma CleanSignedDigits(n: nat)
    ensures CleanAmount("$" + NatToDecimal(n)) == NatToDecimal(n)
  {
    CleanAmountAppend("$", NatToDecimal(n));
    assert CleanAmount("$") == [] + CleanAmount([]);
  }

  /** A whole amount typed with a currency sign in front reads as that many units, in cents. */
  lemma WholeAmountFromInput(n: nat, code: string)
    requires CurrencyOf(code).Some?
    ensures ParseMoneyFromInput("$" + NatToDecimal(n), code) == Ok(Some(Money(100 * n, CurrencyOf(code).value)))
  {
    CleanSignedDigits(n);
    ParseFloatOfDecimal(n);
    var c := CurrencyOf(code).value;
    var m := Money(100 * n, c);
    assert MoneyToNumber(m) == n as real;
    CreateMoneyRoundTrip(m, code);
  }

  /** Input with nothing numeric in it gives null, whatever the currency. */
  lemma NothingNumericGivesNull(input: string, code: string)
    requires forall k :: 0 <= k < |input| ==> !IsDigit(input[k])
    ensures ParseMoneyFromInput(input, code) == Ok(None)
  {
    CleanAddsNoDigit(input);
    ParseFloatNeedsDigit(CleanAmount(input));
  }

  lemma {:induction false} CleanAddsNoDigit(input: string)
    requires forall k :: 0 <= k < |input| ==> !IsDigit(input[k])
    ensures forall k :: 0 <= k < |CleanAmount(input)| ==> !IsDigit(CleanAmount(input)[k])
    decreases |input|
  {
    if input != [] {
      CleanAddsNoDigit(input[1..]);
      var head := if KeptInAmount(input[0]) then [input[0]] else [];
      assert CleanAmount(input) == head + CleanAmount(input[1..]);
    }
  }
}
