/** The Option and Result shapes used for the source's `undefined`/`null`
    values and for its thrown errors. */
module Wrappers {

  datatype Option<+T> = None | Some(value: T) {
    function GetOr(default: T): T {
      match this
      case Some(v) => v
      case None => default
    }
  }

  /** A computation that either produces a value or throws an error whose
      message is kept. */
  datatype Result<+T> = Success(value: T) | Failure(error: string)
}
