/** The conventional Some/None wrapper, used for values a caller may leave out. */
module Optional {
  datatype Option<T> = None | Some(value: T) {
    function GetOr(default: T): T {
      match this
      case Some(v) => v
      case None => default
    }
  }
}
