/** Optional values and results, the shapes the dashboard's JavaScript expresses with
    `null`/`undefined` and with early returns that set an error message. */
module Wrappers {

  datatype Option<+T> = None | Some(value: T) {

    /** The `?? default` of the source. */
    function GetOr(default: T): T {
      match this
      case Some(v) => v
      case None => default
    }
  }

  datatype Result<+R, +E> = Success(value: R) | Failure(error: E)
}
