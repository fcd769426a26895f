/**
 * `backend/src/middleware/error-handler.ts`: the Express error handler as a
 * function from the thrown error and the request path to the response it
 * writes.
 */
module ErrorHandler {
  import opened Wrappers
  import opened Strings
  import opened HttpStatus
  import opened AppAssert
  import opened Zod

  /**
   * The refresh route's path, on which the handler also clears the auth
   * cookies. `utils/auth-cookies.ts` is not part of this model; the value is
   * the route the client calls to refresh.
   */
  const REFRESH_PATH := "/auth/refresh"

  const VERIFY_EMAIL_ROUTE := "/email/verify"
  const INVALID_VERIFICATION_CODE := "Invalid or expired verification code."
  const VALIDATION_FAILED := "Validation failed."
  const INTERNAL_ERROR_TEXT := "Internal server error."

  /** What reaches the handler: a `ZodError`, a `CustomError`, or anything else. */
  datatype HandledError = ZodError(issues: seq<ZodIssue>) | AppError(error: CustomError) | UnknownError

  /** One `{ path, message }` entry of a validation response. */
  datatype FieldEntry = FieldEntry(path: string, message: string)

  datatype Body =
    | MessageJson(message: string)
    | ValidationJson(errors: seq<FieldEntry>, message: string)
    | AppErrorJson(message: string, errorCode: Option<AppErrorCode>)
    | PlainText(text: string)

  /** The status and body written, and whether the auth cookies were cleared. */
  datatype Response = Response(status: int, body: Body, cookiesCleared: bool)

  /** A path segment as `join` renders it: a key as is, an index in decimal. */
  function SegmentText(s: PathSegment): string {
    match s
    case Key(name) => name
    case Index(i) => NatToString(i)
  }

  function SegmentTexts(path: seq<PathSegment>): (r: seq<string>)
    ensures |r| == |path|
    ensures forall k | 0 <= k < |path| :: r[k] == SegmentText(path[k])
  {
    seq(|path|, k requires 0 <= k < |path| => SegmentText(path[k]))
  }

  /** `err.path.join(".")`. */
  function PathText(path: seq<PathSegment>): string {
    Join(SegmentTexts(path), '.')
  }

  /** `error.issues.map(...)`: one entry per issue, in order. */
  function IssueEntries(issues: seq<ZodIssue>): (r: seq<FieldEntry>)
    ensures |r| == |issues|
    ensures forall k | 0 <= k < |issues| :: r[k] == FieldEntry(PathText(issues[k].path), issues[k].message)
  {
    seq(|issues|, k requires 0 <= k < |issues| => FieldEntry(PathText(issues[k].path), issues[k].message))
  }

  /** `handleZodErrror`: the verify-email route hides the issues behind one 404 message. */
  function HandleZodError(issues: seq<ZodIssue>, reqPath: string): (r: (int, Body))
    ensures Contains(reqPath, VERIFY_EMAIL_ROUTE) ==> r == (NOT_FOUND, MessageJson(INVALID_VERIFICATION_CODE))
    ensures !Contains(reqPath, VERIFY_EMAIL_ROUTE) ==>
      r.0 == BAD_REQUEST && r.1.ValidationJson? && r.1.message == VALIDATION_FAILED
      && |r.1.errors| == |issues|
      && forall k | 0 <= k < |issues| ::
           r.1.errors[k].path == PathText(issues[k].path) && r.1.errors[k].message == issues[k].message
  {
    if Contains(reqPath, VERIFY_EMAIL_ROUTE) then (NOT_FOUND, MessageJson(INVALID_VERIFICATION_CODE))
    else (BAD_REQUEST, ValidationJson(IssueEntries(issues), VALIDATION_FAILED))
  }

  /** `errorHandler`. */
  function HandleError(error: HandledError, reqPath: string): (r: Response)
    ensures r.cookiesCleared <==> reqPath == REFRESH_PATH
    ensures error.ZodError? ==> (r.status, r.body) == HandleZodError(error.issues, reqPath)
    ensures error.AppError? ==>
      r.status == error.error.statusCode && r.body == AppErrorJson(error.error.message, error.error.errorCode)
    ensures error.UnknownError? ==> r.status == INTERNAL_SERVER_ERROR && r.body == PlainText(INTERNAL_ERROR_TEXT)
  {
    var cleared := reqPath == REFRESH_PATH;
    match error
    case ZodError(issues) =>
      var (status, body) := HandleZodError(issues, reqPath);
      Response(status, body, cleared)
    case AppError(e) => Response(e.statusCode, AppErrorJson(e.message, e.errorCode), cleared)
    case UnknownError => Response(INTERNAL_SERVER_ERROR, PlainText(INTERNAL_ERROR_TEXT), cleared)
  }

  /** The issues of a field of an object schema are reported under that field's name. */
  lemma FieldPathText(name: string)
    ensures PathText([Key(name)]) == name
  {
    assert SegmentTexts([Key(name)]) == [name];
  }

  /**
   * A reported path splits at its dots back into the issue's segments,
   * provided no key contains a dot (an index never does).
   */
  lemma PathTextSplits(path: seq<PathSegment>)
    requires |path| >= 1
    requires forall k | 0 <= k < |path| :: path[k].Key? ==> '.' !in path[k].name
    ensures Split(PathText(path), '.') == SegmentTexts(path)
  {
    var parts := SegmentTexts(path);
    forall k | 0 <= k < |parts|
      ensures '.' !in parts[k]
    {
      if path[k].Index? {
        var t := NatToString(path[k].index);
        assert forall m | 0 <= m < |t| :: t[m] != '.';
      }
    }
    SplitJoin(parts, '.');
  }
}
