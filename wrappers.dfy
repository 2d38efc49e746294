/** Optional values and results with an error, used for absent request fields and for the
    failures the handlers and services report. */
module Wrappers {

  datatype Option<+T> = None | Some(value: T)
  {
    /** The value, or `default` when absent: JavaScript's `x || default` for a value that is
        truthy whenever present, and the ORM's "undefined leaves the column as it is". */
    function GetOr(default: T): T
    {
      match this
      case Some(v) => v
      case None => default
    }
  }

  datatype Result<+T, +E> = Ok(value: T) | Err(error: E)
}
