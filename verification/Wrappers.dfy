/** Values that may be missing, and results that may be refused. */
module Wrappers {

  datatype Option<+T> = None | Some(value: T) {
    function GetOr(default: T): T {
      if Some? then value else default
    }
  }

  /** An exception raised is the Err case here. */
  datatype Result<+T, +E> = Ok(value: T) | Err(error: E)

  datatype Unit = Unit
}
