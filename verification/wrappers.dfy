/** A value that may be absent: `null`/`undefined` in the pages, NaN for a
    failed `parseInt`. */
module Wrappers {

  datatype Option<+T> = None | Some(value: T) {

    function GetOr(default: T): T
    {
      match this
      case Some(v) => v
      case None => default
    }
  }
}
