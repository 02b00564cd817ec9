/** The `Option` of the Rust crate: a value that may be absent.
    It also stands for the result of a call that can panic: `None` is the panic. */
module Optional {

  datatype Option<+T> = None | Some(value: T) {

    /** The value, or `default` when there is none. */
    function GetOr(default: T): T {
      match this
      case Some(v) => v
      case None => default
    }
  }

  /** The result of a call that can panic but whose answer is itself an `Option`, so
      that the panic cannot be folded into `None`. */
  datatype Outcome<+T> = Panics | Returns(value: T)
}
