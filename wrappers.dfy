/** Optional values and success-or-error results, shared by the other modules. */
module Wrappers {

  /** A value that may be absent, as `string | undefined` is in TypeScript. */
  datatype Option<+T> = None | Some(value: T)

  /** The outcome of a check that either yields a value or throws an error. */
  datatype Result<+T, +E> = Ok(value: T) | Err(error: E)
}
