/** Option and Result values used for JavaScript's null/undefined and for thrown errors. */
module Basics {

  /** A value that may be absent (`null` or `undefined` in the source). */
  datatype Option<+T> = None | Some(value: T) {
    function GetOr(default: T): T {
      match this
      case Some(v) => v
      case None => default
    }
  }

  /** The outcome of an operation that either returns a value or throws an error. */
  datatype Result<+T, +E> = Ok(value: T) | Err(error: E)

  /** The empty outcome of a call whose resolved value is not used. */
  datatype Unit = Unit
}
