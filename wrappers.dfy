/** Optional values and fatal outcomes shared by the whole model. */
module Wrappers {
  datatype Option<T> = None | Some(value: T)

  /**
   * The outcome of an operation that can end in a fatal assertion
   * (the source throws an `AssertionFailure`) or in undefined behaviour.
   */
  datatype Result<T> = Ok(value: T) | Fatal(reason: string)
}
