/**
 * The category forms of src/schemas/categorySchemas.ts: creating needs a
 * name and a type and may leave the colour out; updating may send any subset
 * of name, colour and active flag, and cannot change the type.
 */
module CategorySchemas {
  import opened Wrappers
  import opened Text
  import opened Validation

  const NameTooShort := "El nombre debe tener al menos 2 caracteres"
  const NameTooLong := "El nombre no puede exceder 100 caracteres"
  const TypeRequired := "Debes seleccionar un tipo de categoría"
  const ColorInvalid := "Color hexadecimal inválido (ej: #FF5733)"
  const DefaultColor := "#6B7280"

  const CategoryTypes := ["income", "expense"]

  /** `^#[0-9A-Fa-f]{6}$`. */
  predicate IsHexColor(s: string) {
    |s| == 7 && s[0] == '#' && forall k :: 1 <= k < 7 ==> IsHexDigit(s[k])
  }

  /** The schema library's message for a string outside the enumeration. */
  function InvalidEnumValue(received: string): string {
    "Invalid enum value. Expected 'income' | 'expense', received '" + received + "'"
  }

  function NameIssues(name: string): (r: seq<Issue>)
    ensures r == [] <==> 2 <= |name| <= 100
  {
    LengthIssues("name", name, 2, 100, NameTooShort, NameTooLong)
  }

  function ColorIssues(color: string): (r: seq<Issue>)
    ensures r == [] <==> IsHexColor(color)
  {
    Check(IsHexColor(color), "color", ColorInvalid)
  }

  /** The type may be missing (a required error) or a string outside the two values. */
  function TypeIssues(kind: Option<string>): (r: seq<Issue>)
    ensures r == [] <==> kind.Some? && kind.value in CategoryTypes
  {
    match kind
    case None => [Issue("type", TypeRequired)]
    case Some(k) => Check(k in CategoryTypes, "type", InvalidEnumValue(k))
  }

  datatype CreateCategoryInput = CreateCategoryInput(name: string, kind: Option<string>, color: Option<string>)
  datatype CreateCategoryData = CreateCategoryData(name: string, kind: string, color: string)

  /** `createCategorySchema`: a missing colour becomes the default grey before the format check. */
  function ParseCreateCategory(input: CreateCategoryInput): (r: Parsed<CreateCategoryData>)
    ensures r.Ok? <==>
      && 2 <= |input.name| <= 100
      && input.kind.Some? && input.kind.value in CategoryTypes
      && (input.color.None? || IsHexColor(input.color.value))
    ensures r.Ok? ==>
      && r.value.name == Trim(input.name) && Some(r.value.kind) == input.kind
      && r.value.color == input.color.GetOr(DefaultColor) && IsHexColor(r.value.color)
  {
    var color := input.color.GetOr(DefaultColor);
    var issues := NameIssues(input.name) + TypeIssues(input.kind) + ColorIssues(color);
    if issues == [] then Ok(CreateCategoryData(Trim(input.name), input.kind.value, color)) else Err(issues)
  }

  /** The default colour passes its own format check, so leaving the colour out never fails. */
  lemma DefaultColorIsHex()
    ensures IsHexColor(DefaultColor)
  {
    assert IsHexDigit(DefaultColor[1]) && IsHexDigit(DefaultColor[2]) && IsHexDigit(DefaultColor[3]);
    assert IsHexDigit(DefaultColor[4]) && IsHexDigit(DefaultColor[5]) && IsHexDigit(DefaultColor[6]);
  }

  datatype UpdateCategoryInput = UpdateCategoryInput(name: Option<string>, color: Option<string>, isActive: Option<bool>)

  /** `updateCategorySchema`: each field is checked only when present; a type sent along is dropped as an unknown key. */
  function ParseUpdateCategory(input: UpdateCategoryInput): (r: Parsed<UpdateCategoryInput>)
    ensures r.Ok? <==>
      && (input.name.None? || 2 <= |input.name.value| <= 100)
      && (input.color.None? || IsHexColor(input.color.value))
    ensures r.Ok? ==> r.value == UpdateCategoryInput(
      if input.name.Some? then Some(Trim(input.name.value)) else None, input.color, input.isActive)
  {
    var issues :=
      (if input.name.Some? then NameIssues(input.name.value) else [])
      + (if input.color.Some? then ColorIssues(input.color.value) else []);
    if issues == [] then
      Ok(UpdateCategoryInput(if input.name.Some? then Some(Trim(input.name.value)) else None, input.color, input.isActive))
    else Err(issues)
  }

  /** An empty update is valid, and a field is accepted in an update exactly when it is accepted on create. */
  lemma UpdateAgreesWithCreate(name: string, color: string, kind: string)
    requires kind in CategoryTypes
    ensures ParseUpdateCategory(UpdateCategoryInput(None, None, None)).Ok?
    ensures ParseUpdateCategory(UpdateCategoryInput(Some(name), Some(color), None)).Ok? <==>
            ParseCreateCategory(CreateCategoryInput(name, Some(kind), Some(color))).Ok?
  {
  }
}
