/** A value that may be missing: JSON `null`/`undefined` on the frontend,
    an absent key (`dict.get`) on the backend. */
module Optional {

  datatype Option<+T> = None | Some(value: T) {

    /** The value, or `default` when missing (JavaScript `x ?? default`,
        Python `d.get(k, default)`). */
    function GetOr(default: T): T {
      match this
      case Some(v) => v
      case None => default
    }
  }
}
