/** The optional value used for Python's `None`-or-value results, and an exception-or-value result. */
module Wrappers {

  datatype Option<+T> = None | Some(value: T) {

    /** `x if x is not None else default` */
    function GetOr(default: T): T {
      match this
      case Some(v) => v
      case None => default
    }
  }

  /** A call that returns `value`, or raises the exception named by `exception`. */
  datatype Result<+T> = Ok(value: T) | Raised(exception: string)
}
