/**
 * A validation failure from the server's error handler to the client's
 * form: the JSON body the handler writes, read back by `parseApiError`.
 */
module ErrorFlow {
  import opened Wrappers
  import opened Strings
  import opened Zod
  import opened ErrorHandler
  import opened Errors

  /** The body as the client's `ApiError` type reads it. */
  function ClientData(body: Body): (d: Option<ApiErrorData>)
    ensures body.ValidationJson? ==> d.Some? && d.value.errors.Some? && |d.value.errors.value| == |body.errors|
  {
    match body
    case MessageJson(m) => Some(ApiErrorData(Some(m), None))
    case ValidationJson(errors, m) =>
      Some(ApiErrorData(Some(m), Some(seq(|errors|, k requires 0 <= k < |errors| => ApiFieldError(errors[k].path, errors[k].message)))))
    case AppErrorJson(m, _) => Some(ApiErrorData(Some(m), None))
    case PlainText(_) => None
  }

  /** The entries the client reads mirror the issues one for one. */
  predicate Mirrors(errs: seq<ApiFieldError>, issues: seq<ZodIssue>) {
    |errs| == |issues| && forall k | 0 <= k < |errs| :: errs[k].path == PathText(issues[k].path) && errs[k].message == issues[k].message
  }

  /** `k` is the last issue reported at path `p`. */
  predicate LastIssueAt(issues: seq<ZodIssue>, p: string, k: int) {
    && 0 <= k < |issues| && PathText(issues[k].path) == p
    && forall j | k < j < |issues| :: PathText(issues[j].path) != p
  }

  lemma MirroredPaths(errs: seq<ApiFieldError>, issues: seq<ZodIssue>)
    requires Mirrors(errs, issues)
    ensures (set e | e in errs :: e.path) == set i | i in issues :: PathText(i.path)
  {
    forall i | i in issues
      ensures PathText(i.path) in (set e | e in errs :: e.path)
    {
      var k :| 0 <= k < |issues| && issues[k] == i;
      assert errs[k] in errs;
    }
  }

  lemma MirroredLast(errs: seq<ApiFieldError>, issues: seq<ZodIssue>, p: string, k: nat)
    requires Mirrors(errs, issues) && LastWithPath(errs, p, k)
    ensures LastIssueAt(issues, p, k) && errs[k].message == issues[k].message
  {
    forall j | k < j < |issues|
      ensures PathText(issues[j].path) != p
    {
      assert errs[j].path == PathText(issues[j].path);
    }
  }

  /**
   * A Zod failure outside the verify-email route reaches the form as
   * "Validation failed." with one field entry per distinct issue path,
   * showing the message of the last issue reported at that path.
   */
  method ValidationFailureReachesForm(issues: seq<ZodIssue>, reqPath: string) returns (message: string, fieldErrors: map<string, string>)
    requires !Contains(reqPath, VERIFY_EMAIL_ROUTE)
    ensures message == "Validation failed."
    ensures fieldErrors.Keys == set i | i in issues :: PathText(i.path)
    ensures forall p | p in fieldErrors :: exists k :: LastIssueAt(issues, p, k) && fieldErrors[p] == issues[k].message
  {
    var response := HandleError(ZodError(issues), reqPath);
    var data := ClientData(response.body);
    message, fieldErrors := ParseApiError(AxiosError(data));
    var errs := data.value.errors.value;
    assert Mirrors(errs, issues);
    FieldMapIsLastWins(errs);
    MirroredPaths(errs, issues);
    forall p | p in fieldErrors
      ensures exists k :: LastIssueAt(issues, p, k) && fieldErrors[p] == issues[k].message
    {
      var k: nat :| LastWithPath(errs, p, k) && fieldErrors[p] == errs[k].message;
      MirroredLast(errs, issues, p, k);
    }
  }
}
