/** The optional value used wherever the source may hold `undefined`. */
module Options {
  datatype Option<+T> = None | Some(value: T) {
    /** The value, or `default` when there is none (the source's `x || default`). */
    function GetOr(default: T): T {
      match this
      case Some(v) => v
      case None => default
    }
  }
}
