/** Failure values shared by the graphics wrappers.  Each constructor of
    `Error` stands for one .NET exception the wrappers throw; the string is
    the parameter name the exception carries. */
module Errors {

  datatype Error =
    | ArgumentNull(param: string)        // ArgumentNullException(param)
    | ArgumentOutOfRange(param: string)  // ArgumentOutOfRangeException(param)
    | InvalidArgument                    // ArgumentException()
    | ImageTooLarge                      // ArgumentException raised by the bitmap size guard
    | NotSupported                       // NotSupportedException()
    | ObjectDisposed                     // ObjectDisposedException

  /** The value of an operation that returns something or throws. */
  datatype Result<+T> = Success(value: T) | Failure(error: Error)

  /** The value of an operation that returns nothing or throws. */
  datatype Outcome = Pass | Fail(error: Error)

  /** A reference that may be null (for value types that cannot be). */
  datatype Option<+T> = None | Some(value: T)
}
