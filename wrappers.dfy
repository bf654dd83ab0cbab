/** Optional values and results with an error message, the two shapes every
    operation below returns: a JavaScript `null`/`undefined` is `None`, and a
    thrown `Error(message)` is `Err(message)`. */
module Wrappers {
  datatype Option<+T> = None | Some(value: T)
  {
    function GetOr(default: T): T
    {
      if Some? then value else default
    }
  }

  datatype Result<+T> = Ok(value: T) | Err(error: string)
}
