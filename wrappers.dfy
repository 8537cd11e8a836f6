/** Option and Result, the two shapes the application uses for "maybe absent"
    (a JavaScript `null`/`undefined`) and "may throw" (a rejected promise). */
module Wrappers {

  datatype Option<+T> = None | Some(value: T) {
    function GetOr(default: T): T {
      match this
      case Some(v) => v
      case None => default
    }
  }

  datatype Result<+R, +E> = Ok(value: R) | Err(error: E)
}
