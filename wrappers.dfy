/** An optional value: JavaScript's `undefined`/`null` or an absent key. */
module Wrappers {
  datatype Option<+T> = None | Some(value: T) {
    /** The value, or `default` when there is none (JavaScript's `??`). */
    function GetOr(default: T): T {
      match this
      case Some(v) => v
      case None => default
    }
  }
}
