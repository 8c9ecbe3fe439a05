/** The optional value used throughout the model for JavaScript's `null` / `undefined`,
    and the result of an operation that may throw. */
module Optional {

  datatype Option<+T> = None | Some(value: T) {

    /** The wrapped value, or `default` when there is none. */
    function GetOr(default: T): T {
      match this
      case Some(v) => v
      case None => default
    }
  }

  /** A value, or the message of the error thrown instead. */
  datatype Result<+T> = Ok(value: T) | Err(error: string)
}
