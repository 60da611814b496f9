/** Optional values and JSON-style fields shared by every module of the model. */
module Wrappers {

  /** A value that may be missing: JavaScript `undefined`/`null`, Python `None`, SQL `NULL`. */
  datatype Option<+T> = None | Some(value: T) {
    function GetOr(default: T): T {
      match this
      case Some(v) => v
      case None => default
    }
  }
}
