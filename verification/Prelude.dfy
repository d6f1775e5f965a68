/** The two wrappers every other module uses for absent values and for refusals. */
module Prelude {
  datatype Option<+T> = None | Some(value: T) {
    /** The value, or the type's own zero value: Go's deref of a nullable column. */
    function GetOr(default: T): T {
      match this
      case Some(v) => v
      case None => default
    }
  }

  datatype Result<+R, +E> = Ok(value: R) | Err(error: E)
}
