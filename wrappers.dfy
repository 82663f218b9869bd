/** Option and Result (the nullable values and thrown errors of the source) and bytes. */
module Wrappers {

  datatype Option<+T> = None | Some(value: T) {
    function GetOr(default: T): T {
      match this
      case Some(v) => v
      case None => default
    }
  }

  datatype Result<+R, +E> = Ok(value: R) | Err(error: E)

  /** An unsigned 8-bit value, as a PFTP payload or notification byte. */
  type byte = b: int | 0 <= b < 256
}
