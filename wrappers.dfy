/** Optional values and the completion of a JavaScript expression that may throw. */
module Wrappers {
  /** The optional value that stands for JavaScript's `undefined`/absent property. */
  datatype Option<+T> = None | Some(value: T) {
    /** The value, or a default when absent (`x ?? d`). */
    function GetOr(default: T): T { match this case Some(v) => v case None => default }
  }

  /** How evaluating an expression ends: with a value, or by throwing a TypeError
      (reading a property of `null`, calling a method a value does not have). */
  datatype Outcome<+T> = Returns(value: T) | Throws
}
