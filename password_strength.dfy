/**
 * `frontend/src/lib/passwordStrength.ts`: a score of one point per
 * criterion met, classified into four levels for the strength bar.
 */
module PasswordStrength {
  import opened CharClasses
  import opened Strings

  /** The level (0 to 4), its label (`caption`, since `label` is a Dafny keyword) and the bar's colour class. */
  datatype Strength = Strength(level: nat, caption: string, color: string)

  /** The five criteria the score counts. */
  predicate LongEnough(pw: string) { Utf16Length(pw) >= 8 }

  predicate AllCriteria(pw: string) {
    && LongEnough(pw) && Test(AtLeastOneUppercase, pw) && Test(AtLeastOneLowercase, pw)
    && Test(AtLeastOneNumber, pw) && Test(AtLeastOneSpecialChar, pw)
  }

  /** `better` meets every criterion `pw` meets. */
  predicate MeetsAtLeast(better: string, pw: string) {
    && (LongEnough(pw) ==> LongEnough(better))
    && (Test(AtLeastOneUppercase, pw) ==> Test(AtLeastOneUppercase, better))
    && (Test(AtLeastOneLowercase, pw) ==> Test(AtLeastOneLowercase, better))
    && (Test(AtLeastOneNumber, pw) ==> Test(AtLeastOneNumber, better))
    && (Test(AtLeastOneSpecialChar, pw) ==> Test(AtLeastOneSpecialChar, better))
  }

  function Point(met: bool): nat { if met then 1 else 0 }

  /** The number of criteria met. */
  function Score(pw: string): (n: nat)
    ensures n <= 5
    ensures n == 5 <==> AllCriteria(pw)
  {
    Point(LongEnough(pw)) + Point(Test(AtLeastOneUppercase, pw)) + Point(Test(AtLeastOneLowercase, pw))
    + Point(Test(AtLeastOneNumber, pw)) + Point(Test(AtLeastOneSpecialChar, pw))
  }

  /** The classification of a non-empty password's score. */
  function Classify(score: nat): (s: Strength)
    ensures 1 <= s.level <= 4
    ensures s.level == 4 <==> score >= 5
    ensures s.level == 1 <==> score <= 1
  {
    if score <= 1 then Strength(1, "Weak", "bg-red-500")
    else if score == 2 then Strength(2, "Fair", "bg-amber-500")
    else if score <= 4 then Strength(3, "Good", "bg-yellow-400")
    else Strength(4, "Strong", "bg-emerald-500")
  }

  /** What `getPasswordStrength` returns. */
  function StrengthOf(pw: string): Strength {
    if pw == "" then Strength(0, "", "") else Classify(Score(pw))
  }

  /** `getPasswordStrength`: the score is built up one criterion at a time. */
  method GetPasswordStrength(pw: string) returns (s: Strength)
    ensures s == StrengthOf(pw)
  {
    if pw == "" {
      return Strength(0, "", "");
    }
    var score := 0;
    if Utf16Length(pw) >= 8 { score := score + 1; }
    if Test(AtLeastOneUppercase, pw) { score := score + 1; }
    if Test(AtLeastOneLowercase, pw) { score := score + 1; }
    if Test(AtLeastOneNumber, pw) { score := score + 1; }
    if Test(AtLeastOneSpecialChar, pw) { score := score + 1; }

    if score <= 1 {
      return Strength(1, "Weak", "bg-red-500");
    }
    if score == 2 {
      return Strength(2, "Fair", "bg-amber-500");
    }
    if score <= 4 {
      return Strength(3, "Good", "bg-yellow-400");
    }
    return Strength(4, "Strong", "bg-emerald-500");
  }

  /** The empty password shows no level, label or colour; any other shows a level from 1 to 4. */
  lemma LevelRange(pw: string)
    ensures pw == "" <==> StrengthOf(pw) == Strength(0, "", "")
    ensures pw != "" ==> 1 <= StrengthOf(pw).level <= 4
  {
  }

  /** "Strong" is reached exactly when all five criteria are met. */
  lemma StrongIffAllCriteria(pw: string)
    ensures StrengthOf(pw).level == 4 <==> AllCriteria(pw)
  {
  }

  /** Meeting more criteria never lowers the level. */
  lemma MoreCriteriaNeverLower(pw: string, better: string)
    requires better != "" && MeetsAtLeast(better, pw)
    ensures StrengthOf(pw).level <= StrengthOf(better).level
  {
  }
}
