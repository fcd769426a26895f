/**
 * The part of Zod's semantics the schemas rely on: a string schema is a
 * chain of checks, and parsing reports one issue for each failing check,
 * in the order of the chain (Zod's string checks do not stop at the first
 * failure). The `.email()` format check is a parameter, `isEmail`.
 */
module Zod {
  import opened Wrappers
  import CharClasses
  import opened Strings

  /** One segment of an issue's path: an object key or an array index. */
  datatype PathSegment = Key(name: string) | Index(index: nat)

  /** A `ZodIssue`: where and what. */
  datatype ZodIssue = ZodIssue(path: seq<PathSegment>, message: string)

  /** The checks of `z.string()` chains: `.min`, `.max`, `.length`, `.regex`, `.email`. */
  datatype StringCheck =
    | MinLength(min: nat, message: string)
    | MaxLength(max: nat, message: string)
    | ExactLength(length: nat, message: string)
    | Regex(pattern: CharClasses.Pattern, message: string)
    | EmailFormat(message: string)

  predicate Passes(c: StringCheck, v: string, isEmail: string -> bool) {
    match c
    case MinLength(n, _) => Utf16Length(v) >= n
    case MaxLength(n, _) => Utf16Length(v) <= n
    case ExactLength(n, _) => Utf16Length(v) == n
    case Regex(p, _) => CharClasses.Test(p, v)
    case EmailFormat(_) => isEmail(v)
  }

  /** The issues of a check chain at `path`: one per failing check, in chain order. */
  function Issues(checks: seq<StringCheck>, v: string, path: seq<PathSegment>, isEmail: string -> bool): (r: seq<ZodIssue>)
    ensures |r| <= |checks|
    ensures forall k | 0 <= k < |r| :: r[k].path == path
  {
    if checks == [] then []
    else
      var rest := Issues(checks[1..], v, path, isEmail);
      if Passes(checks[0], v, isEmail) then rest else [ZodIssue(path, checks[0].message)] + rest
  }

  /** A chain reports no issue exactly when every check passes. */
  lemma {:induction false} NoIssuesIffAllPass(checks: seq<StringCheck>, v: string, path: seq<PathSegment>, isEmail: string -> bool)
    ensures Issues(checks, v, path, isEmail) == [] <==> forall k | 0 <= k < |checks| :: Passes(checks[k], v, isEmail)
  {
    if checks != [] {
      NoIssuesIffAllPass(checks[1..], v, path, isEmail);
      assert forall k | 1 <= k < |checks| :: checks[k] == checks[1..][k - 1];
    }
  }

  /** The first reported issue is that of the first failing check. */
  lemma {:induction false} FirstIssueIsFirstFailure(checks: seq<StringCheck>, v: string, path: seq<PathSegment>, isEmail: string -> bool, k: nat)
    requires k < |checks| && !Passes(checks[k], v, isEmail)
    requires forall j | 0 <= j < k :: Passes(checks[j], v, isEmail)
    ensures Issues(checks, v, path, isEmail) != []
    ensures Issues(checks, v, path, isEmail)[0] == ZodIssue(path, checks[k].message)
  {
    if k > 0 {
      assert forall j | 0 <= j < k - 1 :: checks[1..][j] == checks[j + 1];
      FirstIssueIsFirstFailure(checks[1..], v, path, isEmail, k - 1);
    }
  }

  /** The outcome of `schema.parse`: the value, or the issues of a `ZodError`. */
  datatype Parsed<T> = Valid(value: T) | Invalid(issues: seq<ZodIssue>)
}
