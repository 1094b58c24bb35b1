/** Option and Result values shared by the backend and front-end models:
    `Option` stands for a JSON value that may be null or absent, `Result`
    for a handler reply that is either a body or an HTTP error. */
module Outcomes {

  datatype Option<+T> = None | Some(value: T) {

    /** The carried value, or `default` when there is none. */
    function GetOr(default: T): T {
      match this
      case Some(v) => v
      case None => default
    }
  }

  datatype Result<+T, +E> = Ok(value: T) | Err(error: E)
}
