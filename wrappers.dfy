/** Failure-compatible wrappers shared by the cart modules. */
module Wrappers {

  /** A value that may be missing; for a price, `None` stands for the NaN that
      `parseFloat` yields on text it cannot read. */
  datatype Option<+T> = None | Some(value: T)

  /** The outcome of a step that can fail with an error value. */
  datatype Result<+R, +E> = Success(value: R) | Failure(error: E)
}
