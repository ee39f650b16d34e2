/** Option and Result values shared by every module of the model.
    Errors carry the human-readable message the program reports. */
module Results {

  datatype Option<+T> = None | Some(value: T) {
    /** The value, or the given fallback when there is none. */
    function GetOr(default: T): T {
      match this
      case Some(v) => v
      case None => default
    }
  }

  datatype Result<+T> = Ok(value: T) | Err(msg: string)
}
