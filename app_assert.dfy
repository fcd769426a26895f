/**
 * `utils/custom-error.ts` and `utils/app-assert.ts`: every domain failure is
 * one structured error value; `appAssert` either lets control continue or
 * raises it. The raise is modelled as a `Fail` result that callers propagate.
 */
module AppAssert {
  import opened Wrappers

  /** `constants/app-error`: the application error codes the core uses. */
  datatype AppErrorCode = InvalidAccessToken

  /** `CustomError(statusCode, message, errorCode?)`. */
  datatype CustomError = CustomError(statusCode: int, message: string, errorCode: Option<AppErrorCode>)

  /** The result of an operation that either returns a value or raises a `CustomError`. */
  datatype Result<T> = Success(value: T) | Failure(error: CustomError)

  /** The result of an `appAssert` call: control continues, or an error is raised. */
  datatype Outcome = Pass | Fail(error: CustomError)

  /**
   * `appAssert(condition, status, message, errorCode?)`: a truthy condition
   * has no effect; a falsy one raises a `CustomError` built from exactly the
   * given status, message and code (absent when omitted).
   */
  function Assert(condition: bool, status: int, message: string, code: Option<AppErrorCode>): (o: Outcome)
    ensures o.Pass? <==> condition
    ensures o.Fail? ==> o.error.statusCode == status && o.error.message == message && o.error.errorCode == code
  {
    if condition then Pass else Fail(CustomError(status, message, code))
  }
}
