/** The optional value used across the model for "present or absent"
    (a JavaScript `null`/`undefined` field, a missing query parameter). */
module Optional {

  datatype Option<+T> = None | Some(value: T) {

    /** The wrapped value, or `default` when absent. */
    function GetOr(default: T): T
    {
      match this
      case Some(v) => v
      case None => default
    }
  }
}
