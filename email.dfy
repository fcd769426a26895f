/**
 * The outbound email capability (`utils/send-email.ts`, a Resend client) as
 * the services see it: the outcome of one `sendEmail` call, and the links the
 * messages embed.
 */
module Email {
  import opened Wrappers
  import opened HttpStatus
  import opened AppAssert

  /** What `sendEmail` resolves to: `{data: {id}}` or `{error: {name, message}}`. */
  datatype EmailOutcome = Sent(id: string) | SendFailed(name: string, message: string)

  /** `data?.id` is truthy. */
  predicate Delivered(o: EmailOutcome) {
    o.Sent? && o.id != ""
  }

  /** `${error?.name} - ${error?.message}`, with JavaScript's rendering of a missing error. */
  function FailureMessage(o: EmailOutcome): string {
    match o
    case Sent(_) => "undefined - undefined"
    case SendFailed(name, message) => name + " - " + message
  }

  /** The error a service raises when the transport returned no id. */
  function SendError(o: EmailOutcome): CustomError {
    CustomError(INTERNAL_SERVER_ERROR, FailureMessage(o), None)
  }

  /**
   * The links the emails carry: `${APP_ORIGIN}/email/verify/${code}` and
   * `${APP_ORIGIN}/password/reset?code=${code}&exp=${exp}`.
   */
  datatype Link = VerifyEmailLink(code: ObjectId) | ResetPasswordLink(code: ObjectId, exp: int)

  /** The `{url, emailId}` a service returns after a successful send. */
  datatype SentEmail = SentEmail(url: Link, emailId: string)
}
