/** Option and Result values shared by the server and client modules. */
module Wrappers {

  /** A value that may be absent: JavaScript's `undefined`/`null`, SQL NULL,
      or a number that did not parse to a finite value. */
  datatype Option<+T> = None | Some(value: T)

  /** The outcome of an operation that can fail with an error message. */
  datatype Result<+R, +E> = Success(value: R) | Failure(error: E)
}
