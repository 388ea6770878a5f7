/** Optional values and results with an error text. */
module Wrappers {

  datatype Option<+T> = None | Some(value: T) {
    function GetOr(default: T): T {
      if None? then default else value
    }
  }

  datatype Result<+T> = Ok(value: T) | Err(message: string)
}
