/** Python's `None`-or-value, the shape of every nullable column and session key in the model. */
module Optional {

  datatype Option<+T> = None | Some(value: T) {

    /** The wrapped value, or `default` when there is none. */
    function GetOr(default: T): T {
      match this
      case Some(v) => v
      case None => default
    }
  }
}
