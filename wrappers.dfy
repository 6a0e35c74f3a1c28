/** Failure-carrying values shared by every module of the model.

    JavaScript code in this system signals failure by throwing. A thrown value is
    either an `Error` object (possibly wrapping a cause) or some other value; the
    agent loops turn it into a message with
    `error instanceof Error ? error.message : String(error)`, which is `ErrorText`.
 */
module Wrappers {

  datatype Option<+T> = None | Some(value: T) {
    function GetOr(default: T): T {
      match this
      case Some(v) => v
      case None => default
    }
  }

  /** A thrown JavaScript value. */
  datatype Thrown =
    | ErrorObject(message: string)              // new Error(message)
    | Wrapped(message: string, cause: Thrown)   // new Error(message, {cause})
    | OtherValue(text: string)                  // a non-Error value; `text` is String(value)

  /** The result of running code that may throw. */
  datatype Outcome<+T> = Returned(value: T) | Threw(error: Thrown)

  /** `error instanceof Error ? error.message : String(error)` */
  function ErrorText(e: Thrown): string {
    match e
    case ErrorObject(m) => m
    case Wrapped(m, _) => m
    case OtherValue(t) => t
  }
}
