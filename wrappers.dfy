/** Option and Result, the shapes used for absent values and thrown errors. */
module Wrappers {
  datatype Option<T> = None | Some(value: T)
  {
    function UnwrapOr(default: T): (r: T)
      ensures Some? ==> r == value
      ensures None? ==> r == default
    {
      match this
      case Some(v) => v
      case None => default
    }
  }

  /** The outcome of a step that may throw; `error` is the thrown message. */
  datatype Result<T> = Ok(value: T) | Err(error: string)
}
