/** Optional values and results that carry an error. */
module Outcomes {
  datatype Option<+T> = None | Some(value: T)

  datatype Result<+T, +E> = Ok(value: T) | Err(error: E)

  datatype Check<+E> = Pass | Fail(error: E)
}
