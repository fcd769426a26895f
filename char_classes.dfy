/**
 * The character classes of the password rules: the regular expressions
 * `AT_LEAST_ONE_NUMBER` .. `AT_LEAST_ONE_SPECIAL_CHAR`, as the frontend
 * spells them (it mirrors the backend's `constants/regex`).
 */
module CharClasses {

  datatype Pattern =
    | AtLeastOneNumber        // /[0-9]+/
    | AtLeastOneLetter        // /[a-zA-Z]+/
    | AtLeastOneLowercase     // /[a-z]+/
    | AtLeastOneUppercase     // /[A-Z]+/
    | AtLeastOneSpecialChar   // /[@$!%*?&]+/

  predicate IsDigit(c: char) { '0' <= c <= '9' }
  predicate IsLower(c: char) { 'a' <= c <= 'z' }
  predicate IsUpper(c: char) { 'A' <= c <= 'Z' }
  predicate IsLetter(c: char) { IsLower(c) || IsUpper(c) }
  predicate IsSpecial(c: char) { c in "@$!%*?&" }

  /** The class of characters one match of the pattern consists of. */
  predicate InClass(p: Pattern, c: char) {
    match p
    case AtLeastOneNumber => IsDigit(c)
    case AtLeastOneLetter => IsLetter(c)
    case AtLeastOneLowercase => IsLower(c)
    case AtLeastOneUppercase => IsUpper(c)
    case AtLeastOneSpecialChar => IsSpecial(c)
  }

  /** `p.test(s)`: an unanchored `[class]+` matches exactly when one character of the class occurs. */
  predicate Test(p: Pattern, s: string) {
    exists i | 0 <= i < |s| :: InClass(p, s[i])
  }

  /** A lowercase letter is a letter, so the letter rule never fails once the lowercase rule passes. */
  lemma LowercaseImpliesLetter(s: string)
    requires Test(AtLeastOneLowercase, s)
    ensures Test(AtLeastOneLetter, s)
  {
    var i :| 0 <= i < |s| && IsLower(s[i]);
    assert InClass(AtLeastOneLetter, s[i]);
  }
}
