/** Optional values and results shared by every module of the model. */
module Wrappers {

  /** A value that may be missing: JavaScript's `undefined`/`null` for one field. */
  datatype Option<+T> = None | Some(value: T) {

    /** The value, or `fallback` when it is missing. */
    function GetOr(fallback: T): T {
      match this
      case Some(v) => v
      case None => fallback
    }
  }

  /** A `{success, data}` / `{success:false, error}` pair as the services return it. */
  datatype Result<+T> = Ok(value: T) | Err(error: string) {

    function ToOption(): Option<T> {
      match this
      case Ok(v) => Some(v)
      case Err(_) => None
    }
  }
}
