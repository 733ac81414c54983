/** Failure-compatible wrappers shared by the model: Kotlin's nullable types
    become Option, and a thrown exception becomes the Failure arm of Result. */
module Wrappers {

  /** A Kotlin `T?`: None plays the role of `null`. */
  datatype Option<+T> = None | Some(value: T) {

    /** `this ?: default` */
    function GetOr(default: T): (r: T) {
      match this
      case Some(v) => v
      case None => default
    }
  }

  /** The outcome of a call that may throw: Success or the exception raised. */
  datatype Result<+R, +E> = Success(value: R) | Failure(error: E)
}
