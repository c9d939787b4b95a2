/** Result and option types shared by the model. */
module Wrappers {
  datatype Option<+T> = None | Some(value: T)

  /** A value, or the error the source returns in its place. */
  datatype Result<+T> = Success(value: T) | Failure(error: string)
}
