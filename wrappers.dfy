/** The usual optional-value and success-or-failure datatypes. */
module Wrappers {

  /** `None` stands for a missing value: `null` from `getItem`, or an omitted property or argument. */
  datatype Option<+T> = None | Some(value: T) {
    function GetOr(default: T): T {
      match this
      case Some(v) => v
      case None => default
    }
  }

  datatype Result<+R, +E> = Success(value: R) | Failure(error: E)
}
