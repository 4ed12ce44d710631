/** Values that a JavaScript or Python program may leave out: an absent object
    key, an `undefined` property, a `None` argument. */
module Base {

  datatype Option<+T> = None | Some(value: T) {

    /** The value, or `default` when absent (`x ?? default`, `d.get(k, default)`). */
    function GetOr(default: T): T
    {
      match this
      case Some(v) => v
      case None => default
    }
  }

  /** The outcome of a step that may raise: a value, or the exception's
      message (Python's `str(e)`, JavaScript's `error.message`). */
  datatype Result<+T> = Ok(value: T) | Err(error: string)
}
