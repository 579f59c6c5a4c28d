/** Optional values and results shared by the importer and the plugin loader. */
module Wrappers {

  /** A value that may be missing: Python's `None` or a dictionary key that is absent. */
  datatype Option<+T> = None | Some(value: T) {

    /** The value, or `default` when it is missing (Python's `x or default` on a `None`). */
    function GetOr(default: T): T {
      match this
      case Some(v) => v
      case None => default
    }
  }

  /** The outcome of an operation that either returns normally or raises. */
  datatype Result<+R, +E> = Ok(value: R) | Err(error: E)
}
