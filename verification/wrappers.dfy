/** The failure-compatible wrapper used for the source's `Option` values and for
    the success (`Some`) or failure (`None`) of a call into an external service. */
module Wrappers {

  datatype Option<T> = None | Some(value: T) {

    /** The wrapped value, or `default` when there is none (Rust's `unwrap_or`). */
    function GetOr(default: T): T {
      match this
      case Some(v) => v
      case None => default
    }
  }
}
