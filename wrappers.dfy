/** Option and Result, used for the decoder's error paths (a missing format key,
    a buffer of the wrong length, a sensor reply that is not 80 bytes long). */
module Wrappers {

  datatype Option<+T> = None | Some(value: T)

  datatype Result<+R, +E> = Success(value: R) | Failure(error: E)
}
