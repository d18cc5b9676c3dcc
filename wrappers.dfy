/** Small failure-carrying datatypes shared by every module of the model. */
module Wrappers {

  /** Python's `None` versus a present value. */
  datatype Option<+T> = None | Some(value: T) {
    function GetOr(default: T): T {
      match this
      case Some(v) => v
      case None => default
    }
  }

  /** The outcome of one call into code outside the model: it either returns a
      value or raises an exception whose `str(e)` is `message`. */
  datatype Call<+T> = Returned(value: T) | Raised(message: string)

  /** A value or an error message, for operations that raise `ValueError`. */
  datatype Result<+T> = Success(value: T) | Failure(error: string)
}
