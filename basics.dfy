/** Small value wrappers shared by the rest of the model. */
module Basics {

  /** A value that may be absent: PHP's `null` / unset array entry. */
  datatype Option<+T> = None | Some(value: T) {
    function GetOr(default: T): T {
      match this
      case Some(v) => v
      case None => default
    }
  }

  /** Either a value or the exception that the PHP code throws instead. */
  datatype Result<+T, +E> = Success(value: T) | Failure(error: E)
}
