/** Failure-carrying results for the exceptions the library throws. */
module Wrappers {

  datatype Option<+T> = None | Some(value: T)

  /** The .NET exception types the modelled code throws (or would throw). */
  datatype Exception =
    | ArgumentException
    | ArgumentOutOfRangeException
    | InvalidOperationException
    | NotImplementedException
    | NullReferenceException

  /** A value, or the exception that replaced it. */
  datatype Result<+T> = Ok(value: T) | Err(error: Exception)

  /** The outcome of a void method: it returned, or it threw. */
  datatype Outcome = Pass | Fail(error: Exception)
}
