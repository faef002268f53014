/** Option, Result and Outcome: null references and thrown exceptions of the
    modelled code become values of these types. */
module Wrappers {

  datatype Option<+T> = None | Some(value: T) {
    function GetOr(default: T): T {
      match this
      case Some(v) => v
      case None => default
    }
  }

  datatype Result<+T, +E> = Ok(value: T) | Err(error: E)

  /** The outcome of a void operation that may throw. */
  datatype Outcome<+E> = Pass | Fail(error: E)
}
