/** The usual Some/None wrapper, standing for JavaScript's `undefined` and `null`. */
module Optional {

  datatype Option<+T> = None | Some(value: T) {

    /** `x ?? d`: the wrapped value, or the default when absent. */
    function GetOr(default: T): T {
      match this
      case Some(v) => v
      case None => default
    }
  }
}
