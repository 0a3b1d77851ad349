/** Optional values and results with an error, standing in for TypeScript's
    `T | undefined` / `T | null` and for a thrown `Error` carrying a message. */
module Wrappers {

  datatype Option<+T> = None | Some(value: T)

  datatype Result<+T, +E> = Success(value: T) | Failure(error: E)
}
