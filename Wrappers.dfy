/** Option, Result and Outcome: Java's null and its exceptions, spelled out as values. */
module Wrappers {

  /** A Java reference that may be null. */
  datatype Option<+T> = None | Some(value: T) {
    function GetOr(default: T): T {
      match this
      case Some(v) => v
      case None => default
    }
  }

  /** The value a Java method returns, or the exception it throws. */
  datatype Result<+R, +E> = Success(value: R) | Failure(error: E)

  /** The outcome of a Java method returning void: it completes or it throws. */
  datatype Outcome<+E> = Pass | Fail(error: E)
}
