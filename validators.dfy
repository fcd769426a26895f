/**
 * `frontend/src/lib/validators.ts`: the client-side field validators. Each
 * returns the first failing rule's message, or nothing when the value is
 * acceptable; the rules mirror the backend schemas, with an extra
 * "required" message for empty input.
 */
module Validators {
  import opened Wrappers
  import opened Strings
  import opened CharClasses
  import opened Zod
  import AuthSchema

  /** Every character is neither white space nor `@` (the class `[^\s@]`). */
  predicate NoSpaceOrAt(t: string) {
    forall k | 0 <= k < |t| :: !IsWhitespace(t[k]) && t[k] != '@'
  }

  /**
   * `s` splits at `i` (the `@`) and `j` (the `.`) into three non-empty parts
   * drawn from `[^\s@]`.
   */
  predicate EmailSplit(s: string, i: nat, j: nat) {
    && 0 < i && i + 1 < j && j + 1 < |s|
    && s[i] == '@' && s[j] == '.'
    && NoSpaceOrAt(s[..i]) && NoSpaceOrAt(s[i + 1..j]) && NoSpaceOrAt(s[j + 1..])
  }

  /** `/^[^\s@]+@[^\s@]+\.[^\s@]+$/.test(s)`. */
  predicate LooksLikeEmail(s: string) {
    exists i: nat, j: nat | i < j < |s| :: EmailSplit(s, i, j)
  }

  /** A string of that shape holds exactly one `@`, at the split point. */
  lemma EmailHasOneAt(s: string, i: nat, j: nat)
    requires EmailSplit(s, i, j)
    ensures forall k | 0 <= k < |s| && s[k] == '@' :: k == i
  {
    forall k | 0 <= k < |s| && k != i
      ensures s[k] != '@'
    {
      if k < i {
        assert s[..i][k] == s[k];
      } else if k < j {
        assert s[i + 1..j][k - i - 1] == s[k];
      } else if k > j {
        assert s[j + 1..][k - j - 1] == s[k];
      }
    }
  }

  /** `validateEmail`. */
  function ValidateEmail(value: string): (r: Option<string>)
    ensures r.None? <==> !IsBlank(value) && 6 <= Utf16Length(value) <= 100 && LooksLikeEmail(value)
    ensures IsBlank(value) ==> r == Some("Email is required.")
  {
    if IsBlank(value) then Some("Email is required.")
    else if Utf16Length(value) < 6 then Some("Email must be at least 6 characters.")
    else if Utf16Length(value) > 100 then Some("Email cannot exceed 100 characters.")
    else if !LooksLikeEmail(value) then Some("Invalid email address.")
    else None
  }

  /** `validatePassword`. */
  function ValidatePassword(value: string): (r: Option<string>)
    ensures r.None? <==> AuthSchema.StrongPassword(value)
    ensures value == "" ==> r == Some("Password is required.")
  {
    if value == "" then Some("Password is required.")
    else if Utf16Length(value) < 8 then Some("Password must be at least 8 characters.")
    else if Utf16Length(value) > 100 then Some("Password cannot exceed 100 characters.")
    else if !Test(AtLeastOneNumber, value) then Some("At least one number is required.")
    else if !Test(AtLeastOneLetter, value) then Some("At least one letter is required.")
    else if !Test(AtLeastOneLowercase, value) then Some("At least one lowercase letter is required.")
    else if !Test(AtLeastOneUppercase, value) then Some("At least one uppercase letter is required.")
    else if !Test(AtLeastOneSpecialChar, value) then Some("At least one special character is required.")
    else None
  }

  /**
   * Lengths are counted in UTF-16 units, as `value.length` counts them: the
   * two emoji here count two each, so six characters reach the minimum of 8.
   */
  lemma SurrogatePairsCountTwice()
    ensures Utf16Length("Aa1!\U{1F600}\U{1F600}") == 8
    ensures ValidatePassword("Aa1!\U{1F600}\U{1F600}") == None
  {
    var v := "Aa1!\U{1F600}\U{1F600}";
    assert IsUpper(v[0]) && IsLower(v[1]) && IsDigit(v[2]) && IsSpecial(v[3]);
  }

  /** `validateLoginPassword`: length only, no complexity rules. */
  function ValidateLoginPassword(value: string): (r: Option<string>)
    ensures r.None? <==> 8 <= Utf16Length(value) <= 100
    ensures value == "" ==> r == Some("Password is required.")
  {
    if value == "" then Some("Password is required.")
    else if Utf16Length(value) < 8 then Some("Password must be at least 8 characters.")
    else if Utf16Length(value) > 100 then Some("Password cannot exceed 100 characters.")
    else None
  }

  /** `validateConfirmPassword`: the length rules, then equality with the password. */
  function ValidateConfirmPassword(value: string, password: string): (r: Option<string>)
    ensures r.None? <==> 8 <= Utf16Length(value) <= 100 && value == password
    ensures value == "" ==> r == Some("Please confirm your password.")
    ensures 8 <= Utf16Length(value) <= 100 && value != password ==> r == Some("Passwords do not match.")
  {
    if value == "" then Some("Please confirm your password.")
    else if Utf16Length(value) < 8 then Some("Confirm password must be at least 8 characters.")
    else if Utf16Length(value) > 100 then Some("Confirm password cannot exceed 100 characters.")
    else if value != password then Some("Passwords do not match.")
    else None
  }

  /** The grouped `validators` export. */
  datatype ValidatorSet = ValidatorSet(
    email: string -> Option<string>,
    password: string -> Option<string>,
    loginPassword: string -> Option<string>,
    confirmPassword: (string, string) -> Option<string>)

  const validators := ValidatorSet(ValidateEmail, ValidatePassword, ValidateLoginPassword, ValidateConfirmPassword)

  /** Every password the registration rule accepts is accepted at login too. */
  lemma RegisterPasswordPassesLogin(value: string)
    requires ValidatePassword(value).None?
    ensures ValidateLoginPassword(value).None?
  {
  }

  /**
   * On a non-blank value, and with `.email()` judging as the client's
   * regular expression does, the client accepts exactly what the email
   * schema accepts and reports the schema's first issue.
   */
  lemma EmailMirrorsSchema(v: string, isEmail: string -> bool)
    requires !IsBlank(v) && isEmail(v) == LooksLikeEmail(v)
    ensures ValidateEmail(v).None? <==> Issues(AuthSchema.EmailSchema, v, [], isEmail) == []
    ensures ValidateEmail(v).Some? ==>
      Issues(AuthSchema.EmailSchema, v, [], isEmail) != []
      && ValidateEmail(v).value == Issues(AuthSchema.EmailSchema, v, [], isEmail)[0].message
  {
    var s := AuthSchema.EmailSchema;
    AuthSchema.EmailSchemaAccepts(v, [], isEmail);
    if Utf16Length(v) < 6 {
      FirstIssueIsFirstFailure(s, v, [], isEmail, 0);
    } else if Utf16Length(v) > 100 {
      FirstIssueIsFirstFailure(s, v, [], isEmail, 1);
    } else if !LooksLikeEmail(v) {
      FirstIssueIsFirstFailure(s, v, [], isEmail, 2);
    }
  }

  /** On a non-empty password the client reports the password schema's first issue. */
  lemma PasswordMirrorsSchema(v: string, isEmail: string -> bool)
    requires v != ""
    ensures ValidatePassword(v).None? <==> Issues(AuthSchema.PasswordSchema, v, [], isEmail) == []
    ensures ValidatePassword(v).Some? ==>
      Issues(AuthSchema.PasswordSchema, v, [], isEmail) != []
      && ValidatePassword(v).value == Issues(AuthSchema.PasswordSchema, v, [], isEmail)[0].message
  {
    var s := AuthSchema.PasswordSchema;
    AuthSchema.PasswordSchemaAccepts(v, [], isEmail);
    if Utf16Length(v) < 8 {
      FirstIssueIsFirstFailure(s, v, [], isEmail, 0);
    } else if Utf16Length(v) > 100 {
      FirstIssueIsFirstFailure(s, v, [], isEmail, 1);
    } else if !Test(AtLeastOneNumber, v) {
      FirstIssueIsFirstFailure(s, v, [], isEmail, 2);
    } else if !Test(AtLeastOneLetter, v) {
      FirstIssueIsFirstFailure(s, v, [], isEmail, 3);
    } else if !Test(AtLeastOneLowercase, v) {
      FirstIssueIsFirstFailure(s, v, [], isEmail, 4);
    } else if !Test(AtLeastOneUppercase, v) {
      FirstIssueIsFirstFailure(s, v, [], isEmail, 5);
    } else if !Test(AtLeastOneSpecialChar, v) {
      FirstIssueIsFirstFailure(s, v, [], isEmail, 6);
    }
  }

  /** On a non-empty password the client reports the login schema's first issue. */
  lemma LoginPasswordMirrorsSchema(v: string, isEmail: string -> bool)
    requires v != ""
    ensures ValidateLoginPassword(v).None? <==> Issues(AuthSchema.LoginPasswordSchema, v, [], isEmail) == []
    ensures ValidateLoginPassword(v).Some? ==>
      Issues(AuthSchema.LoginPasswordSchema, v, [], isEmail) != []
      && ValidateLoginPassword(v).value == Issues(AuthSchema.LoginPasswordSchema, v, [], isEmail)[0].message
  {
    var s := AuthSchema.LoginPasswordSchema;
    AuthSchema.LoginPasswordSchemaAccepts(v, [], isEmail);
    if Utf16Length(v) < 8 {
      FirstIssueIsFirstFailure(s, v, [], isEmail, 0);
    } else if Utf16Length(v) > 100 {
      FirstIssueIsFirstFailure(s, v, [], isEmail, 1);
    }
  }

  /**
   * On a non-empty confirmation the client reports the confirm-password
   * field's first issue, and otherwise the refinement's mismatch message.
   */
  lemma ConfirmPasswordMirrorsSchema(v: string, password: string, isEmail: string -> bool)
    requires v != ""
    ensures ValidateConfirmPassword(v, password).None? <==>
      Issues(AuthSchema.ConfirmPasswordSchema, v, [], isEmail) == [] && v == password
    ensures Issues(AuthSchema.ConfirmPasswordSchema, v, [], isEmail) != [] ==>
      ValidateConfirmPassword(v, password) == Some(Issues(AuthSchema.ConfirmPasswordSchema, v, [], isEmail)[0].message)
    ensures Issues(AuthSchema.ConfirmPasswordSchema, v, [], isEmail) == [] && v != password ==>
      ValidateConfirmPassword(v, password) == Some(AuthSchema.PASSWORDS_DO_NOT_MATCH.message)
  {
    var s := AuthSchema.ConfirmPasswordSchema;
    AuthSchema.ConfirmPasswordSchemaAccepts(v, [], isEmail);
    if Utf16Length(v) < 8 {
      FirstIssueIsFirstFailure(s, v, [], isEmail, 0);
    } else if Utf16Length(v) > 100 {
      FirstIssueIsFirstFailure(s, v, [], isEmail, 1);
    }
  }
}
