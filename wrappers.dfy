/** The optional-value datatype that stands for Rust's `Option`. */
module Wrappers {

  datatype Option<+T> = None | Some(value: T) {

    /** `unwrap_or_default`, with the default supplied by the caller. */
    function UnwrapOr(default: T): (v: T)
    {
      match this
      case Some(x) => x
      case None => default
    }
  }
}
