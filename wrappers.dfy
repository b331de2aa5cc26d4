/** Failure-carrying values: the model's stand-in for .NET exceptions. */
module Wrappers {

  /** A value that may be absent (a C# `null`). */
  datatype Option<+T> = None | Some(value: T) {

    /** The value, or `default` when absent (the C# `??` operator). */
    function GetOr(default: T): T {
      match this
      case Some(v) => v
      case None => default
    }
  }

  /** Either a value or the message of the exception that was thrown instead. */
  datatype Result<+T> = Success(value: T) | Failure(error: string)

  /** An operation that returns nothing but may throw. */
  datatype Outcome = Pass | Fail(error: string)
}
