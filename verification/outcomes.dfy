/** Optional values and fallible results, as the gateway's operations need them. */
module Outcomes {

  /** A value that may be absent, like a Python argument left at its `None` default. */
  datatype Option<+T> = None | Some(value: T)

  /** The outcome of an operation that can raise: its value, or the error it raises. */
  datatype Result<+T, +E> = Ok(value: T) | Err(error: E)
}
