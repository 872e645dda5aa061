/** Option stands in for the nullable pointers of the Go server and the
    `Optional[...]` values of the Python clients. */
module Wrappers {

  datatype Option<+T> = None | Some(value: T) {

    /** The value when present, `default` otherwise. */
    function GetOr(default: T): T {
      match this
      case Some(v) => v
      case None => default
    }
  }
}
