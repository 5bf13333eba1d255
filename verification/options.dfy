/** The optional value the model uses where the Go source uses a nil pointer or a (value, ok) pair. */
module Options {
  datatype Option<+T> = None | Some(value: T) {
    function GetOr(default: T): T {
      match this
      case None => default
      case Some(v) => v
    }
  }
}
