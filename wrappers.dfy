/** Option, Result and the "key may be absent" wrapper shared by every module. */
module Wrappers {

  datatype Option<+T> = None | Some(value: T) {
    function GetOr(default: T): T {
      match this
      case Some(v) => v
      case None => default
    }
  }

  datatype Result<+R, +E> = Success(value: R) | Failure(error: E)

  /** A key of a JSON object or keyword argument: left out, or given (possibly as null). */
  datatype Field<+T> = Absent | Present(value: T)
}
