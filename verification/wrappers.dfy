/** Optional values and success-or-error results, shared by the whole model. */
module Wrappers {

  /** An optional value: JavaScript's `null` / `undefined` versus a present value. */
  datatype Option<+T> = None | Some(value: T)
  {
    function GetOr(default: T): T
    {
      match this
      case Some(v) => v
      case None => default
    }
  }

  /** The outcome of an operation that either returns a value or throws. */
  datatype Result<+T, +E> = Ok(value: T) | Err(error: E)
}
