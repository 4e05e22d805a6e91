/** Optional values and success-or-error results, used for the optional
    incoming total of a pricing calculation and for the errors raised while a
    strategy is constructed. */
module Wrappers {

  /** A value that may be absent (the source's `None`). */
  datatype Option<+T> = None | Some(value: T) {

    /** The carried value, or `default` when there is none. */
    function GetOr(default: T): T {
      match this
      case Some(v) => v
      case None => default
    }
  }

  /** Either a constructed value or the error raised instead of it. */
  datatype Result<+T, +E> = Ok(value: T) | Err(error: E)
}
