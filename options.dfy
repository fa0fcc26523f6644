/** Python's `None`-or-value: a request argument that may be absent, a
    nullable column. */
module Options {

  datatype Option<+T> = None | Some(value: T) {
    function GetOr(default: T): T {
      match this
      case Some(v) => v
      case None => default
    }
  }
}
