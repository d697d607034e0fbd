// Shared value types: optional values and the source's thrown errors as results.
module Prelude {
  datatype Option<+T> = None | Some(value: T)
  {
    function UnwrapOr(fallback: T): T {
      if Some? then value else fallback
    }
  }

  datatype Result<+T, +E> = Ok(value: T) | Err(error: E)
}
