/** The optional value used wherever the source has `null` or `undefined`. */
module Options {
  datatype Option<+T> = None | Some(value: T) {
    /** The wrapped value, or `default` when there is none (the source's `x || default`). */
    function GetOr(default: T): (r: T)
      ensures Some? ==> r == value
      ensures None? ==> r == default
    {
      match this
      case Some(v) => v
      case None => default
    }
  }
}
