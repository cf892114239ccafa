/** Success and failure wrappers, and the exception kinds the query builder
    and the transactional storage throw synchronously. */
module Outcomes {

  /** A value that may be absent: JavaScript `undefined`, and `null` too
      where the source treats the two alike. */
  datatype Option<+T> = None | Some(value: T)

  /** The exception classes thrown by the core. */
  datatype Error =
    | ArgumentError     // ydn.error.ArgumentException, ydn.debug.error.ArgumentException
    | ConstraintError   // ydn.error.ConstrainError
    | InvalidOperation  // ydn.error.InvalidOperationException
    | SqlParseError     // ydn.db.SqlParseError
    | NotImplemented    // ydn.error.NotImplementedException

  /** The value a call returns, or the exception it throws. */
  datatype Result<+T> = Ok(value: T) | Err(error: Error)

  /** Outcome of a builder call that only returns `this` or throws. */
  datatype Outcome = Done | Fail(error: Error)
}
