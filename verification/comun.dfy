/** `Option` and `Result`, shared by the model. */
module Comun {

  /** `None` stands where the source has `null`. */
  datatype Option<+T> = None | Some(value: T)

  /** An outcome that either completes with a value or ends in an uncaught exception. */
  datatype Result<+R, +E> = Success(value: R) | Failure(error: E)
}
