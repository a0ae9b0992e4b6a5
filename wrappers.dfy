/** The conventional optional value, standing in for a C pointer that may be NULL. */
module Wrappers {

  datatype Option<+T> = None | Some(value: T) {

    /** The encapsulated value, or `default` when there is none. */
    function GetOr(default: T): T {
      match this
      case Some(v) => v
      case None => default
    }
  }

  /** A value or the error that prevented it, standing in for a call that may raise. */
  datatype Result<+T, +E> = Success(value: T) | Failure(error: E)
}
