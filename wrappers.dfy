/** Failure-compatible wrappers shared by the model: an optional value and a
    result whose error side is the text of the exception the source raises. */
module Wrappers {

  datatype Option<+T> = None | Some(value: T) {
    /** The value, or `default` when there is none (Python's `dict.get(k, default)`). */
    function GetOr(default: T): (r: T)
      ensures Some? ==> r == value
      ensures None? ==> r == default
    {
      match this
      case Some(v) => v
      case None => default
    }
  }

  /** `Err(e)` stands for a raised exception whose `str()` is `e`. */
  datatype Result<+T> = Ok(value: T) | Err(error: string)
}
