/** Option and Result: the shapes in which the model carries values that may be
    absent (`undefined`, `null`) and outcomes that may be rejected promises. */
module Common {

  datatype Option<+T> = None | Some(value: T) {
    /** `x ?? default` */
    function GetOr(default: T): T {
      match this
      case Some(v) => v
      case None => default
    }
  }

  /** An awaited outcome: the resolved value, or the error it was rejected with. */
  datatype Result<+T, +E> = Ok(value: T) | Err(error: E)
}
