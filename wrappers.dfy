/** Optional values and error-carrying results, used where the source has
    `undefined` fields or throws an `Error` with a message. */
module Wrappers {

  datatype Option<+T> = None | Some(value: T)

  /** A thrown `Error` is modelled as `Failure` carrying its message. */
  datatype Result<+T> = Success(value: T) | Failure(message: string)
}
