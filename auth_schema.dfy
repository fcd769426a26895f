/**
 * `schemas/auth.schema.ts`: the request schemas as Zod check chains, and
 * the object schemas built from them with their `password ===
 * confirmPassword` refinement.
 */
module AuthSchema {
  import opened Wrappers
  import opened CharClasses
  import opened Zod
  import opened Strings

  const EmailSchema: seq<StringCheck> := [
    MinLength(6, "Email must be at least 6 characters."),
    MaxLength(100, "Email cannot exceed 100 characters."),
    EmailFormat("Invalid email address.")
  ]

  const PasswordSchema: seq<StringCheck> := [
    MinLength(8, "Password must be at least 8 characters."),
    MaxLength(100, "Password cannot exceed 100 characters."),
    Regex(AtLeastOneNumber, "At least one number is required."),
    Regex(AtLeastOneLetter, "At least one letter is required."),
    Regex(AtLeastOneLowercase, "At least one lowercase letter is required."),
    Regex(AtLeastOneUppercase, "At least one uppercase letter is required."),
    Regex(AtLeastOneSpecialChar, "At least one special character is required.")
  ]

  const ConfirmPasswordSchema: seq<StringCheck> := [
    MinLength(8, "Confirm password must be at least 8 characters."),
    MaxLength(100, "Confirm password cannot exceed 100 characters.")
  ]

  /** The login schema's own password field: the length checks only. */
  const LoginPasswordSchema: seq<StringCheck> := [
    MinLength(8, "Password must be at least 8 characters."),
    MaxLength(100, "Password cannot exceed 100 characters.")
  ]

  const VerificationCodeSchema: seq<StringCheck> := [ExactLength(24, "Invalid or expired verification code.")]

  const SessionSchema: seq<StringCheck> := [ExactLength(24, "Invalid session id.")]

  const PASSWORDS_DO_NOT_MATCH := ZodIssue([Key("confirmPassword")], "Passwords do not match.")

  /** What the email schema accepts. */
  predicate AcceptableEmail(v: string, isEmail: string -> bool) {
    6 <= Utf16Length(v) <= 100 && isEmail(v)
  }

  /** What the password schema accepts: the length bounds and all five character rules. */
  predicate StrongPassword(v: string) {
    && 8 <= Utf16Length(v) <= 100
    && Test(AtLeastOneNumber, v) && Test(AtLeastOneLetter, v) && Test(AtLeastOneLowercase, v)
    && Test(AtLeastOneUppercase, v) && Test(AtLeastOneSpecialChar, v)
  }

  lemma EmailSchemaAccepts(v: string, path: seq<PathSegment>, isEmail: string -> bool)
    ensures Issues(EmailSchema, v, path, isEmail) == [] <==> AcceptableEmail(v, isEmail)
  {
    NoIssuesIffAllPass(EmailSchema, v, path, isEmail);
    assert Passes(EmailSchema[0], v, isEmail) && Passes(EmailSchema[1], v, isEmail) && Passes(EmailSchema[2], v, isEmail)
      <==> AcceptableEmail(v, isEmail);
  }

  lemma PasswordSchemaAccepts(v: string, path: seq<PathSegment>, isEmail: string -> bool)
    ensures Issues(PasswordSchema, v, path, isEmail) == [] <==> StrongPassword(v)
  {
    NoIssuesIffAllPass(PasswordSchema, v, path, isEmail);
    var s := PasswordSchema;
    assert (forall k | 0 <= k < |s| :: Passes(s[k], v, isEmail)) <==>
      Passes(s[0], v, isEmail) && Passes(s[1], v, isEmail) && Passes(s[2], v, isEmail) && Passes(s[3], v, isEmail)
      && Passes(s[4], v, isEmail) && Passes(s[5], v, isEmail) && Passes(s[6], v, isEmail);
  }

  /** The confirm-password field is checked for length only. */
  lemma ConfirmPasswordSchemaAccepts(v: string, path: seq<PathSegment>, isEmail: string -> bool)
    ensures Issues(ConfirmPasswordSchema, v, path, isEmail) == [] <==> 8 <= Utf16Length(v) <= 100
  {
    NoIssuesIffAllPass(ConfirmPasswordSchema, v, path, isEmail);
    assert Passes(ConfirmPasswordSchema[0], v, isEmail) && Passes(ConfirmPasswordSchema[1], v, isEmail) <==> 8 <= Utf16Length(v) <= 100;
  }

  /** The login password is checked for length only, with no character rules. */
  lemma LoginPasswordSchemaAccepts(v: string, path: seq<PathSegment>, isEmail: string -> bool)
    ensures Issues(LoginPasswordSchema, v, path, isEmail) == [] <==> 8 <= Utf16Length(v) <= 100
  {
    NoIssuesIffAllPass(LoginPasswordSchema, v, path, isEmail);
    assert Passes(LoginPasswordSchema[0], v, isEmail) && Passes(LoginPasswordSchema[1], v, isEmail) <==> 8 <= Utf16Length(v) <= 100;
  }

  datatype RegisterInput = RegisterInput(email: string, password: string, confirmPassword: string, userAgent: Option<string>)
  datatype LoginInput = LoginInput(email: string, password: string, userAgent: Option<string>)
  datatype ResetInput = ResetInput(verificationCode: string, password: string, confirmPassword: string)

  /**
   * `registerSchema.parse`: the field issues in field order, then, when
   * the two passwords differ, the refinement's issue at `confirmPassword`.
   * All fields are strings here, so the refinement always runs (Zod skips
   * it only after a type error, which a well-typed input cannot raise).
   */
  function ParseRegister(input: RegisterInput, isEmail: string -> bool): (r: Parsed<RegisterInput>)
    ensures r.Valid? <==>
      AcceptableEmail(input.email, isEmail) && StrongPassword(input.password)
      && 8 <= Utf16Length(input.confirmPassword) <= 100 && input.password == input.confirmPassword
    ensures r.Valid? ==> r.value == input
    ensures input.password != input.confirmPassword ==>
      r.Invalid? && |r.issues| > 0 && r.issues[|r.issues| - 1] == PASSWORDS_DO_NOT_MATCH
    ensures (AcceptableEmail(input.email, isEmail) && StrongPassword(input.password) && 8 <= Utf16Length(input.confirmPassword) <= 100
             && input.password != input.confirmPassword) ==> r == Invalid([PASSWORDS_DO_NOT_MATCH])
  {
    EmailSchemaAccepts(input.email, [Key("email")], isEmail);
    PasswordSchemaAccepts(input.password, [Key("password")], isEmail);
    ConfirmPasswordSchemaAccepts(input.confirmPassword, [Key("confirmPassword")], isEmail);
    var issues :=
      Issues(EmailSchema, input.email, [Key("email")], isEmail)
      + Issues(PasswordSchema, input.password, [Key("password")], isEmail)
      + Issues(ConfirmPasswordSchema, input.confirmPassword, [Key("confirmPassword")], isEmail)
      + if input.password != input.confirmPassword then [PASSWORDS_DO_NOT_MATCH] else [];
    if issues != [] then Invalid(issues) else Valid(input)
  }

  /** `loginSchema.parse`: the email rules and a length-only password. */
  function ParseLogin(input: LoginInput, isEmail: string -> bool): (r: Parsed<LoginInput>)
    ensures r.Valid? <==> AcceptableEmail(input.email, isEmail) && 8 <= Utf16Length(input.password) <= 100
    ensures r.Valid? ==> r.value == input
  {
    EmailSchemaAccepts(input.email, [Key("email")], isEmail);
    LoginPasswordSchemaAccepts(input.password, [Key("password")], isEmail);
    var issues :=
      Issues(EmailSchema, input.email, [Key("email")], isEmail)
      + Issues(LoginPasswordSchema, input.password, [Key("password")], isEmail);
    if issues != [] then Invalid(issues) else Valid(input)
  }

  /** `verificationCodeSchema.parse`: exactly 24 characters. */
  function ParseVerificationCode(v: string): (r: Parsed<string>)
    ensures r.Valid? <==> Utf16Length(v) == 24
    ensures r.Invalid? ==> r.issues == [ZodIssue([], "Invalid or expired verification code.")]
  {
    var issues := Issues(VerificationCodeSchema, v, [], _ => true);
    if issues != [] then Invalid(issues) else Valid(v)
  }

  /** `requestPasswordSchema.parse`: code, password and confirmation issues, then the refinement's. */
  function ParseRequestPassword(input: ResetInput, isEmail: string -> bool): (r: Parsed<ResetInput>)
    ensures r.Valid? <==>
      Utf16Length(input.verificationCode) == 24 && StrongPassword(input.password)
      && 8 <= Utf16Length(input.confirmPassword) <= 100 && input.password == input.confirmPassword
    ensures r.Valid? ==> r.value == input
    ensures input.password != input.confirmPassword ==>
      r.Invalid? && |r.issues| > 0 && r.issues[|r.issues| - 1] == PASSWORDS_DO_NOT_MATCH
    ensures (Utf16Length(input.verificationCode) == 24 && StrongPassword(input.password) && 8 <= Utf16Length(input.confirmPassword) <= 100
             && input.password != input.confirmPassword) ==> r == Invalid([PASSWORDS_DO_NOT_MATCH])
  {
    PasswordSchemaAccepts(input.password, [Key("password")], isEmail);
    ConfirmPasswordSchemaAccepts(input.confirmPassword, [Key("confirmPassword")], isEmail);
    var issues :=
      Issues(VerificationCodeSchema, input.verificationCode, [Key("verificationCode")], isEmail)
      + Issues(PasswordSchema, input.password, [Key("password")], isEmail)
      + Issues(ConfirmPasswordSchema, input.confirmPassword, [Key("confirmPassword")], isEmail)
      + if input.password != input.confirmPassword then [PASSWORDS_DO_NOT_MATCH] else [];
    if issues != [] then Invalid(issues) else Valid(input)
  }

  /** `sessionSchema.parse`: exactly 24 characters. */
  function ParseSessionId(v: string): (r: Parsed<string>)
    ensures r.Valid? <==> Utf16Length(v) == 24
    ensures r.Invalid? ==> r.issues == [ZodIssue([], "Invalid session id.")]
  {
    var issues := Issues(SessionSchema, v, [], _ => true);
    if issues != [] then Invalid(issues) else Valid(v)
  }
}
