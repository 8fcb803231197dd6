/** Optional values and fallible results, standing in for Python's `None`
    and for exceptions that the modelled code raises to its caller. */
module Wrappers {

  datatype Option<+T> = None | Some(value: T) {
    /** The wrapped value, or `default` when absent (Python's `d.get(k, default)`). */
    function GetOr(default: T): T {
      match this
      case Some(v) => v
      case None => default
    }
  }

  /** `Err(message)` is an exception that propagates out of the modelled call. */
  datatype Result<+T> = Ok(value: T) | Err(error: string)
}
