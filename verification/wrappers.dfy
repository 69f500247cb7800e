/** Optional values and call results, shared by the bridge and router models. */
module Wrappers {

  /** An optional value: a handle, a listener reference or a callback slot that may be empty. */
  datatype Option<+T> = None | Some(value: T)

  /** Either the new state of a successful call or the error the call raised. */
  datatype Result<+R, +E> = Success(value: R) | Failure(error: E)
}
