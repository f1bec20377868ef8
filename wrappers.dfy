/** Option and Result values used for the source's null returns and its error replies. */
module Wrappers {

  datatype Option<+T> = None | Some(value: T) {
    function GetOr(default: T): T {
      match this
      case Some(v) => v
      case None => default
    }
  }

  /** `Err` carries the `error` string the source puts in its `{"success": False, ...}` replies. */
  datatype Result<+R> = Ok(value: R) | Err(error: string)
}
