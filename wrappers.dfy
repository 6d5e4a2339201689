/** Optional values (JavaScript's `undefined`) and failures (a thrown `Error`). */
module Wrappers {

  /** `None` stands for a missing or `undefined` value. */
  datatype Option<+T> = None | Some(value: T) {

    /** The value, or `default` when missing: JavaScript's `??` operator. */
    function GetOr(default: T): T {
      match this
      case Some(v) => v
      case None => default
    }

    /** `this ?? other` on two optional values. */
    function OrElse(other: Option<T>): Option<T> {
      if Some? then this else other
    }
  }

  /** The outcome of an operation that may throw an `Error` carrying `message`. */
  datatype Result<+T> = Ok(value: T) | Err(message: string)
}
