/** Error values and the small result types shared by the whole model. */
module Errors {

  /** The errors a write can end with: a failed call on the output writer
      (identified by the writer's call number) or an error reported by a
      child image while it renders itself. */
  datatype Error =
    | WriteError(call: nat)
    | ImageError(code: nat)

  /** Go's `error` return value: nil, or an error. */
  datatype Status = Ok | Failed(error: Error)

  /** A value, or the error that prevented computing it. */
  datatype Result<+T> = Success(value: T) | Failure(error: Error)

  datatype Option<+T> = None | Some(value: T)
}
