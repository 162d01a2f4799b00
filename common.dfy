/** Failure-compatible wrappers shared by the whole model. */
module Common {

  /** A value that may be absent: Python's `None` or a missing dictionary key. */
  datatype Option<+T> = None | Some(value: T) {
    /** `x if x is not None else default`, and `d.get(key, default)`. */
    function GetOr(default: T): T {
      match this
      case Some(v) => v
      case None => default
    }
  }

  /** A value or the text of the exception that replaced it. */
  datatype Result<+T> = Ok(value: T) | Err(error: string)
}
