/** Option and Result values used for optional JavaScript properties and for
    the outcome of an asynchronous call (a resolved or a rejected promise). */
module Wrappers {

  datatype Option<+T> = None | Some(value: T) {
    /** The value, or `default` when absent (JavaScript's `x || default` on a present/absent value). */
    function GetOr(default: T): T {
      match this
      case Some(v) => v
      case None => default
    }
  }

  datatype Result<+R, +E> = Success(value: R) | Failure(error: E)
}
