/** Option and Result, the two failure-carrying shapes the model uses for the
    source's `None` returns and raised exceptions. */
module Wrappers {

  datatype Option<+T> = None | Some(value: T) {
    function GetOr(default: T): T {
      match this
      case Some(v) => v
      case None => default
    }
  }

  /** `Failure(e)` stands for an exception whose message is `e`. */
  datatype Result<+R, +E> = Success(value: R) | Failure(error: E)
}
