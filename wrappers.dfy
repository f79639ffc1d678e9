/** Option and Result datatypes shared by the other modules. */
module Wrappers {

  /** An optional value: a JavaScript `undefined`, or a host call that threw, is `None`. */
  datatype Option<+T> = None | Some(value: T) {
    function GetOr(default: T): T {
      match this
      case Some(v) => v
      case None => default
    }
  }

  /** The value a throwing JavaScript function returns, or the error it throws. */
  datatype Result<+T, +E> = Success(value: T) | Failure(error: E)
}
