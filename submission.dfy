/** What the sign-in and sign-up pages do with a rejected call, and where they
    send the browser afterwards. */
module Submission {

  /** A value an awaited call rejects with: an `Error` carrying a message, or any
      other thrown value. */
  datatype Rejection = ErrorValue(message: string) | NonErrorValue

  const FallbackMessage := "An error occurred"

  /** `err instanceof Error ? err.message : 'An error occurred'`. */
  function ErrorText(r: Rejection): (text: string)
    ensures r.ErrorValue? ==> text == r.message
    ensures r.NonErrorValue? ==> text == FallbackMessage
  {
    match r
    case ErrorValue(message) => message
    case NonErrorValue => FallbackMessage
  }

  /** A `navigate(path, { replace })` call. */
  datatype Navigation = Navigation(path: string, replace: bool)
}
