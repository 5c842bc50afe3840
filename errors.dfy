/** Values shared by every part of the agent: optional values, the errors
    JavaScript code throws, and the outcome of an operation that may throw. */
module Errors {

  datatype Option<+T> = None | Some(value: T)

  /** A thrown JavaScript error: its optional numeric `status` (set by the
      HTTP clients of the language-model service) and its `message`. */
  datatype Error = Error(status: Option<int>, message: string)

  /** The outcome of an `async` call: the value it resolves to, or the error
      it throws. */
  datatype Outcome<+T> = Ok(value: T) | Thrown(error: Error)

  /** `error.status === code`. */
  predicate HasStatus(e: Error, code: int) {
    e.status == Some(code)
  }
}
