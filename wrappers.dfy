/** Option and Result, the two failure-carrying datatypes used throughout the model. */
module Wrappers {

  /** A value that may be missing (JavaScript `null` or `undefined` at the source level). */
  datatype Option<T> = None | Some(value: T) {

    /** The value, or `default` when there is none (the `x ?? default` idiom). */
    function GetOr(default: T): T {
      match this
      case Some(v) => v
      case None => default
    }
  }

  /** Either a computed value or the error that stopped the computation. */
  datatype Result<T, E> = Ok(value: T) | Err(error: E)
}
