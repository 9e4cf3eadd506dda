/** Absent values and error returns, as the TypeScript code expresses them
    with `undefined`/`null` and thrown errors. */
module Wrappers {
  datatype Option<+T> = None | Some(value: T)

  datatype Result<+T, +E> = Ok(value: T) | Err(error: E)
}
