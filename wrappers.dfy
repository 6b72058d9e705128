/** Option and Result: the null/undefined values and the thrown errors of the source. */
module Wrappers {

  datatype Option<+T> = None | Some(value: T) {
    function GetOr(default: T): T {
      match this
      case Some(v) => v
      case None => default
    }
  }

  /** `Err` carries the message that the source puts into the thrown `Error`. */
  datatype Result<+T> = Ok(value: T) | Err(message: string)
}
