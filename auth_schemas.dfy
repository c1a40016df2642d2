/**
 * The sign-up and sign-in forms of src/schemas/authSchemas.ts, and the
 * password strength meter shown while typing. The email address format is
 * the schema library's own and is a parameter here.
 */
module AuthSchemas {
  import opened Wrappers
  import opened Text
  import opened Numbers
  import opened Validation

  const NameTooShort := "El nombre debe tener al menos 2 caracteres"
  const NameTooLong := "El nombre no puede exceder 100 caracteres"
  const EmailInvalid := "Correo electrónico inválido"
  const EmailTooLong := "El correo no puede exceder 255 caracteres"
  const PasswordTooShort := "La contraseña debe tener al menos 8 caracteres"
  const PasswordTooLong := "La contraseña no puede exceder 100 caracteres"
  const PasswordNoLower := "Debe contener al menos una minúscula"
  const PasswordNoUpper := "Debe contener al menos una mayúscula"
  const PasswordNoDigit := "Debe contener al menos un número"
  const PasswordNoSpecial := "Debe contener al menos un carácter especial (!@#$%^&*)"
  const PasswordsDiffer := "Las contraseñas no coinciden"
  const PasswordRequired := "La contraseña es requerida"

  /** Anything but an ASCII letter or digit, as `[^a-zA-Z0-9]` matches. */
  predicate IsSpecial(c: char) { !IsAsciiLower(c) && !IsAsciiUpper(c) && !IsDigit(c) }

  predicate HasLower(s: string) { exists k :: 0 <= k < |s| && IsAsciiLower(s[k]) }
  predicate HasUpper(s: string) { exists k :: 0 <= k < |s| && IsAsciiUpper(s[k]) }
  predicate HasDigit(s: string) { exists k :: 0 <= k < |s| && IsDigit(s[k]) }
  predicate HasSpecial(s: string) { exists k :: 0 <= k < |s| && IsSpecial(s[k]) }

  // ------------------------------------------------------------ password meter

  datatype Requirements = Requirements(minLength: bool, hasLowercase: bool, hasUppercase: bool, hasNumber: bool, hasSpecial: bool)

  datatype Strength = Weak | Medium | Strong

  datatype StrengthReport = StrengthReport(requirements: Requirements, strength: Strength, metRequirements: nat, totalRequirements: nat)

  /** How many of the five requirements hold. */
  function Met(q: Requirements): nat {
    Count(q.minLength) + Count(q.hasLowercase) + Count(q.hasUppercase) + Count(q.hasNumber) + Count(q.hasSpecial)
  }

  predicate AllMet(q: Requirements) {
    q.minLength && q.hasLowercase && q.hasUppercase && q.hasNumber && q.hasSpecial
  }

  /**
   * `validatePasswordStrength(password)`: the five requirements, how many
   * hold, and the level: strong when all five hold, medium for three or
   * four, weak otherwise.
   */
  function ValidatePasswordStrength(password: string): (r: StrengthReport)
    ensures r.requirements == Requirements(|password| >= 8, HasLower(password), HasUpper(password), HasDigit(password), HasSpecial(password))
    ensures r.metRequirements <= 5 && r.totalRequirements == 5
    ensures r.metRequirements == Met(r.requirements)
    ensures r.strength == Strong <==> AllMet(r.requirements)
    ensures r.strength == Medium <==> 3 <= r.metRequirements <= 4
    ensures r.strength == Weak <==> r.metRequirements <= 2
  {
    var q := Requirements(|password| >= 8, HasLower(password), HasUpper(password), HasDigit(password), HasSpecial(password));
    var met := Met(q);
    var strength := if met >= 5 then Strong else if met >= 3 then Medium else Weak;
    StrengthReport(q, strength, met, 5)
  }

  // ------------------------------------------------------------- sign-up form

  datatype RegisterInput = RegisterInput(name: string, email: string, password: string, confirmPassword: string, currency: Option<string>)

  /** The values the form submits: name and address trimmed, the address lower-cased. */
  datatype RegisterData = RegisterData(name: string, email: string, password: string, confirmPassword: string, currency: Option<string>)

  /** The `email` field: the format, then at most 255 characters, then trim and lower-case. */
  function EmailIssues(email: string, isEmail: string -> bool): (r: seq<Issue>)
    ensures r == [] <==> isEmail(email) && |email| <= 255
  {
    Check(isEmail(email), "email", EmailInvalid) + MaxIssues("email", email, 255, EmailTooLong)
  }

  /** The `password` field of the sign-up form: 8 to 100 characters with a lower-case letter, an upper-case letter, a digit and a special character. */
  function PasswordIssues(password: string): (r: seq<Issue>)
    ensures r == [] <==> 8 <= |password| <= 100 && HasLower(password) && HasUpper(password) && HasDigit(password) && HasSpecial(password)
  {
    LengthIssues("password", password, 8, 100, PasswordTooShort, PasswordTooLong)
    + Check(HasLower(password), "password", PasswordNoLower)
    + Check(HasUpper(password), "password", PasswordNoUpper)
    + Check(HasDigit(password), "password", PasswordNoDigit)
    + Check(HasSpecial(password), "password", PasswordNoSpecial)
  }

  /**
   * `registerSchema`: every field's checks run, then the two passwords are
   * compared and a mismatch is reported on `confirmPassword`.
   */
  function ParseRegister(input: RegisterInput, isEmail: string -> bool): (r: Parsed<RegisterData>)
    ensures r.Ok? <==>
      && 2 <= |input.name| <= 100 && isEmail(input.email) && |input.email| <= 255
      && PasswordIssues(input.password) == [] && input.password == input.confirmPassword
    ensures r.Ok? ==> r.value == RegisterData(Trim(input.name), LowerAscii(Trim(input.email)), input.password, input.confirmPassword, input.currency)
    ensures r.Err? && input.password != input.confirmPassword ==> Issue("confirmPassword", PasswordsDiffer) in r.error
  {
    var issues :=
      LengthIssues("name", input.name, 2, 100, NameTooShort, NameTooLong)
      + EmailIssues(input.email, isEmail)
      + PasswordIssues(input.password)
      + Check(input.password == input.confirmPassword, "confirmPassword", PasswordsDiffer);
    if issues == [] then
      Ok(RegisterData(Trim(input.name), LowerAscii(Trim(input.email)), input.password, input.confirmPassword, input.currency))
    else Err(issues)
  }

  /** Every password the sign-up form accepts is rated strong by the meter. */
  lemma AcceptedPasswordIsStrong(input: RegisterInput, isEmail: string -> bool)
    requires ParseRegister(input, isEmail).Ok?
    ensures ValidatePasswordStrength(input.password).strength == Strong
    ensures ValidatePasswordStrength(input.confirmPassword).strength == Strong
  {
  }

  /** The meter can rate a password strong that the form still rejects: it sets no upper bound on length. */
  lemma StrongButTooLong(password: string)
    requires |password| > 100 && HasLower(password) && HasUpper(password) && HasDigit(password) && HasSpecial(password)
    ensures ValidatePasswordStrength(password).strength == Strong
    ensures PasswordIssues(password) != []
  {
  }

  // ------------------------------------------------------------- sign-in form

  datatype LoginInput = LoginInput(email: string, password: string)

  /** `loginSchema`: a well-formed address and any non-empty password. */
  function ParseLogin(input: LoginInput, isEmail: string -> bool): (r: Parsed<LoginInput>)
    ensures r.Ok? <==> isEmail(input.email) && input.password != ""
    ensures r.Ok? ==> r.value == LoginInput(LowerAscii(Trim(input.email)), input.password)
    ensures input.password == "" ==> r.Err? && Issue("password", PasswordRequired) in r.error
  {
    var issues := Check(isEmail(input.email), "email", EmailInvalid) + Check(input.password != "", "password", PasswordRequired);
    if issues == [] then Ok(LoginInput(LowerAscii(Trim(input.email)), input.password)) else Err(issues)
  }
}
