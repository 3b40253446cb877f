/** Failure-carrying values shared by the whole model. */
module Wrappers {

  /** Python's `Optional[T]`: a value or `None`. */
  datatype Option<+T> = None | Some(value: T) {
    function GetOr(default: T): T
    {
      match this
      case Some(v) => v
      case None => default
    }
  }

  /** A value or the message of the exception that replaced it. */
  datatype Result<+T> = Ok(value: T) | Err(message: string)

  /**
   * A key of a Python dict as seen by `d.get(key, default)`: the key may be
   * absent (the default applies), present with value `None`, or present
   * with a value.
   */
  datatype Field<+T> = Missing | Null | Given(value: T)
}
