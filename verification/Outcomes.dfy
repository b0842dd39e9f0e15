/** Values shared by every module: an optional value, the library's exceptions, and `Try`. */
module Outcomes {

  datatype Option<+T> = None | Some(value: T)

  /** The error codes that the modelled code raises itself; user code may raise any other. */
  datatype ErrorCode =
    | ALREADY_COMPLETED
    | NO_SUCH_ELEMENT
    | FUTURE_WAS_SUCCESSFUL
    | RUNTIME_ERROR
    | OTHER(code: nat)

  datatype Exception = Exception(code: ErrorCode, message: string)

  /** A finished `Try`: user code returned a value or threw. A `Try` that is neither exists in the
      source only between its default construction and the assignment on the next line. */
  datatype Try<+T> = Success(value: T) | Failure(error: Exception)
}
