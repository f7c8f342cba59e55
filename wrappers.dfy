/** Option and Result, the two wrappers the schema models return. */
module Wrappers {

  datatype Option<+T> = None | Some(value: T) {

    /** The wrapped value, or `default` when there is none. */
    function GetOr(default: T): T {
      match this
      case Some(v) => v
      case None => default
    }

    /** `f` applied to the wrapped value, if there is one. */
    function MapValue<U>(f: T -> U): Option<U> {
      match this
      case Some(v) => Some(f(v))
      case None => None
    }
  }

  datatype Result<+R, +E> = Ok(value: R) | Err(error: E)
}
