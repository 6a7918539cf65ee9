/** Optional values and results that may be errors. */
module Wrappers {

  datatype Option<+T> = None | Some(value: T) {
    function GetOr(default: T): T {
      match this
      case Some(v) => v
      case None => default
    }
  }

  /** The Go convention of returning a value or an error; the text of an error is not modelled. */
  datatype Result<+T> = Ok(value: T) | Err
}
