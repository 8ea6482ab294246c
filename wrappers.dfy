/** Option and Result: a missing JavaScript value and a settled promise. */
module Wrappers {

  datatype Option<+T> = None | Some(value: T) {
    function GetOr(default: T): T {
      match this
      case Some(v) => v
      case None => default
    }
  }

  /** A promise that resolved (`Success`) or rejected with a thrown value (`Failure`). */
  datatype Result<+R, +E> = Success(value: R) | Failure(error: E)
}
