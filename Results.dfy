/** Optional values and the error outcome of the services' lookups. */
module Results {

  /** A value that may be missing (`undefined` / `null` in the dashboard). */
  datatype Option<+T> = None | Some(value: T) {
    function GetOr(default: T): T {
      match this
      case Some(v) => v
      case None => default
    }
  }

  /** The outcome of a service call that may throw `new Error(message)`. */
  datatype Result<+T> = Success(value: T) | Failure(message: string)
}
