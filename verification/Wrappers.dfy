/** Optional values and results, shared by every module. */
module Wrappers {

  datatype Option<+T> = None | Some(value: T) {
    function Or(other: Option<T>): Option<T> {
      if Some? then this else other
    }

    function GetOr(default: T): T {
      if Some? then value else default
    }
  }

  datatype Result<+T, +E> = Ok(value: T) | Err(error: E)
}
