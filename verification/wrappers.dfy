/** Result type used for the operations of the quaternion model that can
    throw. */
module Wrappers {

  /** Either the value an operation produced or the error it raised. */
  datatype Result<+R, +E> = Success(value: R) | Failure(error: E)
}
