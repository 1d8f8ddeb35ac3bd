/** The failure-carrying datatypes the rest of the model uses: Option for a
    value that may be absent, Outcome for an operation that may raise, Result for
    an operation that returns a value or raises. */
module Wrappers {

  datatype Option<+T> = None | Some(value: T) {
    function GetOr(default: T): T {
      match this
      case Some(v) => v
      case None => default
    }
  }

  datatype Outcome<+E> = Pass | Fail(error: E)

  datatype Result<+T, +E> = Ok(value: T) | Err(error: E)
}
