/** Small optional-value and result types shared by the page models. */
module Wrappers {

  /** A value that may be absent (`undefined` or `null` on the TypeScript side). */
  datatype Option<+T> = None | Some(value: T)

  /** A computation that either yields a value or fails with an error. */
  datatype Result<+R, +E> = Ok(value: R) | Failure(error: E)
}
