/** Optional values and results with an error, used by every module of the model. */
module Common {

  /** A value that may be absent: a JSON field that is `undefined` or `null`. */
  datatype Option<T> = None | Some(value: T) {
    function GetOr(default: T): T {
      match this
      case Some(v) => v
      case None => default
    }
  }

  /** The outcome of a route handler: the saved document, or the error the handler answers with. */
  datatype Result<T, E> = Ok(value: T) | Err(error: E)

  /** A JSON number field read with `x || 0`: absent and zero both count as zero. */
  function OrZero(x: Option<int>): int {
    x.GetOr(0)
  }
}
