/** Small definitions used throughout. */
module Wrappers {
  datatype Option<+T> = None | Some(value: T)

  datatype Result<+T, +E> = Ok(value: T) | Err(error: E)

  type AgentId = string

  function Min(x: real, y: real): real {
    if x <= y then x else y
  }
}
