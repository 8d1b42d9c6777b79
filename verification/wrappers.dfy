/** The two failure-carrying datatypes the generated code uses: `Option` for a
    builder slot and `Result` for the outcome of `build()`. */
module Wrappers {

  /** A value that may be absent. */
  datatype Option<+T> = None | Some(value: T)

  /** Either a produced value or an error. */
  datatype Result<+R, +E> = Ok(value: R) | Err(error: E)
}
