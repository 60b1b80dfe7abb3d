/** Optional values and the exceptions the modelled Java code throws back to its caller. */
module Wrappers {

  /** A value that may be absent; stands for a Java reference that may be null. */
  datatype Option<+T> = None | Some(value: T) {
    /** The value, or `default` when absent. */
    function GetOr(default: T): T {
      match this
      case Some(v) => v
      case None => default
    }
  }

  /** The exceptions that escape the modelled operations. */
  datatype Exception =
    | IllegalState     // java.lang.IllegalStateException
    | IllegalArgument  // java.lang.IllegalArgumentException
    | IOFailure        // java.io.IOException

  /** How a void Java method ends: normally, or by throwing. */
  datatype Outcome = Pass | Fail(error: Exception)
}
