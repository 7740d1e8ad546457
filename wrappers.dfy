/** Failure-carrying values used by the request schemas: an optional
    argument (a field the caller may leave out), the outcome of one
    validator, and the result of building a request. */
module Wrappers {

  /** A field argument that may be left out, in which case the schema's
      default applies. */
  datatype Option<+T> = None | Some(value: T) {

    /** The supplied value, or `default` when the argument was left out. */
    function GetOr(default: T): T {
      match this
      case Some(v) => v
      case None => default
    }
  }

  /** The outcome of one validator: it passes, or it fails with an error. */
  datatype Outcome<+E> = Pass | Fail(error: E)

  /** Either the built value or the error that stopped it being built. */
  datatype Result<+R, +E> = Success(value: R) | Failure(error: E)
}
