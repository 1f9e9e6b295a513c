/** Option and Result, the two failure-carrying shapes the model uses for
    Python's `None` and for "returns a value or raises". */
module Wrappers {

  datatype Option<+T> = None | Some(value: T) {
    function GetOr(default: T): T {
      match this
      case Some(v) => v
      case None => default
    }
  }

  datatype Result<+R, +E> = Ok(value: R) | Err(error: E) {
    predicate IsOk() { Ok? }
  }
}
