/** Shared wrappers and the domain error codes every adapter reports. */
module Basics {

  type Id = string

  /** What the id generator yields: a prefix, an underscore and hex digits, so never a '#'. */
  type GeneratedId = s: string | '#' !in s witness ""

  datatype Option<+T> = None | Some(value: T)

  datatype ErrorCode =
    | InvalidArgument
    | ResourceNotFound
    | ResourceConflict
    | InvalidStateTransition
    | IdempotencyConflict
    | ExecutionInterrupted
    | SchemaValidationFailed
    | DependencyUnavailable
    | InternalError

  /** The outcome of an operation that may report a domain error. */
  datatype Result<+T> = Success(value: T) | Failure(error: ErrorCode) {
    predicate IsFailure() {
      Failure?
    }

    function PropagateFailure<U>(): Result<U>
      requires Failure?
    {
      Failure(error)
    }

    function Extract(): T
      requires Success?
    {
      value
    }
  }
}
