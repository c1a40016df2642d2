/**
 * The helpers of src/utils/helpers.ts that the transaction lists and the
 * dashboard use: type and payment-method translations, colour classes,
 * icons, the percentage change between two amounts and its display.
 * Amounts are exact reals here; the host's `toFixed` rendering is a
 * parameter. The copies of `translatePaymentMethod`, `isValidEmail` and
 * `truncateText` in that file are the same as those of formatters.ts and
 * are modelled once, in the Formatters module.
 */
module Helpers {
  import opened Numbers
  import opened Formatters

  // ------------------------------------------------------------- translations

  const TransactionTypeNames := map["income" := "Ingreso", "expense" := "Gasto"]

  /** `translateTransactionType(type)`: the Spanish name of a known type, any other text unchanged. */
  function TranslateTransactionType(kind: string): (r: string)
    ensures kind in TransactionTypeNames ==> r == TransactionTypeNames[kind]
    ensures kind !in TransactionTypeNames ==> r == kind
  {
    if kind in TransactionTypeNames && TransactionTypeNames[kind] != "" then TransactionTypeNames[kind] else kind
  }

  /**
   * On the two real types this agrees with the category-type translation;
   * elsewhere it passes the text through, where the category-type one says
   * "expense".
   */
  lemma TransactionTypeMatchesCategoryType(kind: string)
    ensures kind in TransactionTypeNames ==> TranslateTransactionType(kind) == TranslateCategoryType(kind)
    ensures kind !in TransactionTypeNames ==> TranslateTransactionType(kind) == kind && TranslateCategoryType(kind) == "Gasto"
  {
  }

  /** `getTypeColor(type)`. */
  function GetTypeColor(kind: string): (r: string)
    ensures r == "text-success-600" <==> kind == "income"
    ensures r == "text-danger-600" <==> kind != "income"
  {
    if kind == "income" then "text-success-600" else "text-danger-600"
  }

  /** `getTypeBgColor(type)`. */
  function GetTypeBgColor(kind: string): (r: string)
    ensures r == "bg-success-100" <==> kind == "income"
    ensures r == "bg-danger-100" <==> kind != "income"
  {
    if kind == "income" then "bg-success-100" else "bg-danger-100"
  }

  /** The text colour and the background of a type always come from the same palette. */
  lemma TypeColorsAgree(kind: string)
    ensures (GetTypeColor(kind) == "text-success-600") == (GetTypeBgColor(kind) == "bg-success-100")
  {
  }

  // -------------------------------------------------------------------- icons

  const DefaultIcon := "💰"

  const PaymentMethodIcons := map["cash" := "💵", "card" := "💳", "transfer" := "🏦", "check" := "📝", "other" := DefaultIcon]

  /** `getPaymentMethodIcon(method)`: the method's icon, and the money bag for anything unknown. */
  function GetPaymentMethodIcon(code: string): (r: string)
    ensures code in PaymentMethodIcons ==> r == PaymentMethodIcons[code]
    ensures code !in PaymentMethodIcons ==> r == DefaultIcon
  {
    if code in PaymentMethodIcons && PaymentMethodIcons[code] != "" then PaymentMethodIcons[code] else DefaultIcon
  }

  /**
   * The methods with an icon are exactly the methods with a translation, and
   * a method gets the default icon exactly when it is "other" or has no
   * translation.
   */
  lemma IconsCoverTranslatedMethods(code: string)
    ensures code in PaymentMethodIcons <==> code in PaymentMethodNames
    ensures GetPaymentMethodIcon(code) == DefaultIcon <==> code == "other" || TranslatePaymentMethod(code) == code
  {
  }

  // --------------------------------------------------------------- percentages

  /**
   * `calculatePercentageChange(oldValue, newValue)`: from zero, 100 for a
   * rise and 0 otherwise; from anything else, the change as a percentage
   * of the old value's size.
   */
  function CalculatePercentageChange(oldValue: real, newValue: real): (r: real)
    ensures oldValue == 0.0 ==> r == (if newValue > 0.0 then 100.0 else 0.0)
    ensures oldValue != 0.0 ==> r * Abs(oldValue) == (newValue - oldValue) * 100.0
  {
    if oldValue == 0.0 then (if newValue > 0.0 then 100.0 else 0.0)
    else (newValue - oldValue) / Abs(oldValue) * 100.0
  }

  /** From a non-zero value, the change has the sign of the difference, whatever the old value's sign. */
  lemma PercentageChangeSign(oldValue: real, newValue: real)
    requires oldValue != 0.0
    ensures CalculatePercentageChange(oldValue, newValue) > 0.0 <==> newValue > oldValue
    ensures CalculatePercentageChange(oldValue, newValue) < 0.0 <==> newValue < oldValue
    ensures CalculatePercentageChange(oldValue, newValue) == 0.0 <==> newValue == oldValue
  {
    var r := CalculatePercentageChange(oldValue, newValue);
    var a := Abs(oldValue);
    assert r * a == (newValue - oldValue) * 100.0;
    if r > 0.0 { assert r * a > 0.0; }
    if r < 0.0 { assert r * a < 0.0; }
  }

  /** From zero, a fall reads as no change at all. */
  lemma FallFromZeroReadsAsNoChange(newValue: real)
    requires newValue < 0.0
    ensures CalculatePercentageChange(0.0, newValue) == 0.0
  {
  }

  /**
   * `formatPercentage(value)`: the rendering with one decimal, a "%" after
   * it, and a "+" before it for zero and positive values.
   */
  function FormatPercentage(value: real, toFixed1: real -> string): (r: string)
    ensures |r| >= 1 && r[|r| - 1] == '%'
    ensures value >= 0.0 ==> r[0] == '+' && r[1..|r| - 1] == toFixed1(value)
    ensures value < 0.0 ==> r[..|r| - 1] == toFixed1(value)
  {
    (if value >= 0.0 then "+" else "") + toFixed1(value) + "%"
  }

  /** When the rendering itself never starts with "+", the result starts with "+" exactly for values from zero up. */
  lemma PlusSignIffNonNegative(value: real, toFixed1: real -> string)
    requires toFixed1(value) == [] || toFixed1(value)[0] != '+'
    ensures FormatPercentage(value, toFixed1)[0] == '+' <==> value >= 0.0
  {
    var r := FormatPercentage(value, toFixed1);
    if value < 0.0 && toFixed1(value) != [] {
      assert r[0] == toFixed1(value)[0];
    }
  }
}
