/**
 * The income and expense forms of src/schemas/transactionSchemas.ts. Whether
 * the host's date parser accepts a date string is a parameter.
 */
module TransactionSchemas {
  import opened Wrappers
  import opened Text
  import opened Numbers
  import opened Validation

  const ConceptTooShort := "El concepto debe tener al menos 3 caracteres"
  const ConceptTooLong := "El concepto no puede exceder 255 caracteres"
  const DescriptionTooShort := "La descripción debe tener al menos 3 caracteres"
  const DescriptionTooLong := "La descripción no puede exceder 255 caracteres"
  const AmountNotPositive := "El monto debe ser mayor a 0"
  const AmountTooLarge := "El monto es demasiado grande"
  const DateBadFormat := "Formato de fecha inválido (YYYY-MM-DD)"
  const DateInvalid := "Fecha inválida"
  const LongDescription := "La descripción no puede exceder 1000 caracteres"
  const LongNotes := "Las notas no pueden exceder 1000 caracteres"
  const CategoryRequired := "Debe seleccionar una categoría"
  const PaymentMethodInvalid := "Selecciona un método de pago válido"
  /** The schema library's message when neither a string nor a number was given. */
  const InvalidInput := "Invalid input"
  /** The schema library's message when a number field holds NaN. */
  const ExpectedNumber := "Expected number, received nan"

  const MaxAmount: real := 999999999.99

  const PaymentMethods := ["cash", "card", "transfer", "check", "other"]

  // -------------------------------------------------------------------- amount

  /**
   * The transformed amount: text through `parseFloat`, with NaN read as 0.
   * A NaN given as a number is refused by the number branch before any
   * transform, so it has no value.
   */
  function AmountValue(a: NumberOrText): (v: Option<real>)
    ensures a.TextValue? ==> v.Some?
    ensures a.TextValue? && ParseFloat(a.text).NaN? ==> v == Some(0.0)
    ensures a.TextValue? && ParseFloat(a.text).Finite? ==> v == Some(ParseFloat(a.text).value)
    ensures a.NumberValue? ==> (v.None? <==> a.number.NaN?)
    ensures a.NumberValue? && a.number.Finite? ==> v == Some(a.number.value)
  {
    match a
    case TextValue(s) => (match ParseFloat(s) case NaN => Some(0.0) case Finite(v) => Some(v))
    case NumberValue(Finite(v)) => Some(v)
    case NumberValue(NaN) => None
  }

  /** Both refinements run on the transformed value. */
  function AmountIssues(path: string, a: NumberOrText): (r: seq<Issue>)
    ensures r == [] <==> AmountValue(a).Some? && 0.0 < AmountValue(a).value <= MaxAmount
  {
    match AmountValue(a)
    case None => [Issue(path, InvalidInput)]
    case Some(v) => Check(v > 0.0, path, AmountNotPositive) + Check(v <= MaxAmount, path, AmountTooLarge)
  }

  /** Text in which `parseFloat` finds no number becomes 0 and is refused as not positive. */
  lemma UnparsableAmountRejected(path: string, s: string)
    requires ParseFloat(s) == NaN
    ensures AmountValue(TextValue(s)) == Some(0.0)
    ensures AmountIssues(path, TextValue(s)) == [Issue(path, AmountNotPositive)]
  {
  }

  /** In particular, an amount written without a single digit is always refused. */
  lemma AmountWithoutDigitRejected(path: string, s: string)
    requires forall k :: 0 <= k < |s| ==> !IsDigit(s[k])
    ensures AmountIssues(path, TextValue(s)) != []
  {
    ParseFloatNeedsDigit(s);
  }

  /** A whole number of units written in decimal is accepted exactly when it is between 1 and 999999999. */
  lemma WholeAmountAccepted(path: string, n: nat)
    ensures AmountIssues(path, TextValue(NatToDecimal(n))) == [] <==> 1 <= n <= 999999999
  {
    ParseFloatOfDecimal(n);
  }

  // ---------------------------------------------------------------------- date

  /** `^\d{4}-\d{2}-\d{2}$`: four digits, a dash, two digits, a dash, two digits, and nothing else. */
  predicate DateShape(s: string) {
    && |s| == 10
    && IsDigit(s[0]) && IsDigit(s[1]) && IsDigit(s[2]) && IsDigit(s[3]) && s[4] == '-'
    && IsDigit(s[5]) && IsDigit(s[6]) && s[7] == '-' && IsDigit(s[8]) && IsDigit(s[9])
  }

  /** The format check, then the host's date parser; both always run. */
  function DateIssues(path: string, s: string, isDate: string -> bool): (r: seq<Issue>)
    ensures r == [] <==> DateShape(s) && isDate(s)
  {
    Check(DateShape(s), path, DateBadFormat) + Check(isDate(s), path, DateInvalid)
  }

  // ------------------------------------------------------------ other fields

  /** An optional, nullable note of at most 1000 characters, trimmed when given. */
  function OptionalNoteIssues(path: string, t: OptionalText, message: string): (r: seq<Issue>)
    ensures r == [] <==> !t.Given? || |t.text| <= 1000
  {
    if t.Given? then MaxIssues(path, t.text, 1000, message) else []
  }

  function TrimNote(t: OptionalText): (u: OptionalText)
    ensures u.Given? <==> t.Given?
  {
    if t.Given? then Given(Trim(t.text)) else t
  }

  predicate IsWhole(v: real) { v == v.Floor as real }

  /** `z.number().int().positive()`: both refinements run on a number; NaN is refused as not a number. */
  function CategoryIdIssues(path: string, n: JsNumber): (r: seq<Issue>)
    ensures r == [] <==> n.Finite? && IsWhole(n.value) && n.value > 0.0
  {
    match n
    case NaN => [Issue(path, ExpectedNumber)]
    case Finite(v) => Check(IsWhole(v), path, CategoryRequired) + Check(v > 0.0, path, CategoryRequired)
  }

  /** The placeholder 0 a form starts with is refused. */
  lemma PlaceholderCategoryRejected(path: string)
    ensures CategoryIdIssues(path, Finite(0.0)) == [Issue(path, CategoryRequired)]
  {
  }

  // -------------------------------------------------------------------- income

  datatype IncomeInput = IncomeInput(concept: string, amount: NumberOrText, date: string, description: OptionalText, categoryId: JsNumber)

  datatype IncomeData = IncomeData(concept: string, amount: real, date: string, description: OptionalText, categoryId: int)

  /** `incomeSchema`. */
  function ParseIncome(input: IncomeInput, isDate: string -> bool): (r: Parsed<IncomeData>)
    ensures r.Ok? <==>
      && 3 <= |input.concept| <= 255
      && AmountIssues("amount", input.amount) == []
      && DateShape(input.date) && isDate(input.date)
      && (!input.description.Given? || |input.description.text| <= 1000)
      && input.categoryId.Finite? && IsWhole(input.categoryId.value) && input.categoryId.value > 0.0
    ensures r.Ok? ==>
      && 0.0 < r.value.amount <= MaxAmount && r.value.categoryId > 0 && DateShape(r.value.date)
      && r.value.concept == Trim(input.concept) && r.value.description == TrimNote(input.description)
  {
    var issues :=
      LengthIssues("concept", input.concept, 3, 255, ConceptTooShort, ConceptTooLong)
      + AmountIssues("amount", input.amount)
      + DateIssues("date", input.date, isDate)
      + OptionalNoteIssues("description", input.description, LongDescription)
      + CategoryIdIssues("categoryId", input.categoryId);
    if issues == [] then
      Ok(IncomeData(Trim(input.concept), AmountValue(input.amount).value, input.date,
                    TrimNote(input.description), input.categoryId.value.Floor))
    else Err(issues)
  }

  // ------------------------------------------------------------------- expense

  datatype ExpenseInput = ExpenseInput(description: string, amount: NumberOrText, date: string, notes: OptionalText,
                                       paymentMethod: string, categoryId: JsNumber)

  datatype ExpenseData = ExpenseData(description: string, amount: real, date: string, notes: OptionalText,
                                     paymentMethod: string, categoryId: int)

  /** `expenseSchema`. */
  function ParseExpense(input: ExpenseInput, isDate: string -> bool): (r: Parsed<ExpenseData>)
    ensures r.Ok? <==>
      && 3 <= |input.description| <= 255
      && AmountIssues("amount", input.amount) == []
      && DateShape(input.date) && isDate(input.date)
      && (!input.notes.Given? || |input.notes.text| <= 1000)
      && input.paymentMethod in PaymentMethods
      && input.categoryId.Finite? && IsWhole(input.categoryId.value) && input.categoryId.value > 0.0
    ensures r.Ok? ==>
      && 0.0 < r.value.amount <= MaxAmount && r.value.categoryId > 0 && DateShape(r.value.date)
      && r.value.description == Trim(input.description) && r.value.notes == TrimNote(input.notes)
      && r.value.paymentMethod in PaymentMethods
  {
    var issues :=
      LengthIssues("description", input.description, 3, 255, DescriptionTooShort, DescriptionTooLong)
      + AmountIssues("amount", input.amount)
      + DateIssues("date", input.date, isDate)
      + OptionalNoteIssues("notes", input.notes, LongNotes)
      + Check(input.paymentMethod in PaymentMethods, "paymentMethod", PaymentMethodInvalid)
      + CategoryIdIssues("categoryId", input.categoryId);
    if issues == [] then
      Ok(ExpenseData(Trim(input.description), AmountValue(input.amount).value, input.date,
                     TrimNote(input.notes), input.paymentMethod, input.categoryId.value.Floor))
    else Err(issues)
  }
}
