/** Option and Result, the two failure-carrying shapes the handler uses:
    `Option<u32>` for the caller's limit and `Result<_, reqwest::Error>` for every fetch. */
module Wrappers {

  datatype Option<+T> = None | Some(value: T) {

    /** `unwrap_or`: the carried value, or the default when there is none. */
    function GetOr(default: T): T {
      match this
      case Some(v) => v
      case None => default
    }
  }

  datatype Result<+R, +E> = Success(value: R) | Failure(error: E)
}
