/** Option and Result: absent values and the exceptions raised by the
    collaborators of the service (language model, database driver). */
module Wrappers {

  datatype Option<+T> = None | Some(value: T) {
    function GetOr(default: T): T {
      match this
      case Some(v) => v
      case None => default
    }
  }

  /** `Failure(error)` carries the text of the exception, `str(e)`. */
  datatype Result<+T, +E> = Success(value: T) | Failure(error: E)
}
