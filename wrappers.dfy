/** Option and Result, the two failure-carrying datatypes the model uses for
    Python's None and for exceptions. */
module Wrappers {

  datatype Option<+T> = None | Some(value: T) {

    /** The value, or `default` when there is none: `dict.get(key, default)`
        and `fillna(default)`. A present value is kept even when Python would
        call it falsy. */
    function GetOr(default: T): T {
      match this
      case Some(v) => v
      case None => default
    }
  }

  /** `Err` carries the exception or the error message that ends an operation. */
  datatype Result<+T, +E> = Ok(value: T) | Err(error: E)
}
