/** Failure-carrying values shared by every module of the model. */
module Wrappers {

  /** Python's `None` / a present value. */
  datatype Option<+T> = None | Some(value: T) {
    function GetOr(default: T): T {
      match this
      case Some(v) => v
      case None => default
    }
  }

  /**
   * The outcome of a call into code the model does not see (a browser
   * adapter, the generative text service): it either returns a value or
   * raises an exception, whose `str()` is kept as `error`.
   */
  datatype Call<+T> = Returned(value: T) | Raised(error: string)
}
