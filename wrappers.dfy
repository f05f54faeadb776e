/** Option and Result values shared by the backend and frontend models. */
module Wrappers {

  datatype Option<+T> = None | Some(value: T) {
    /** The wrapped value, or `default` when there is none. */
    function GetOr(default: T): T {
      match this
      case Some(v) => v
      case None => default
    }
  }

  /** A success value or an error; the model's stand-in for a thrown exception. */
  datatype Result<+R, +E> = Success(value: R) | Failure(error: E)
}
