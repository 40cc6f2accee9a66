/** Optional values and results of operations that may throw. */
module Wrappers {

  /** A value that may be absent; JavaScript's `undefined` is `None`. */
  datatype Option<T> = None | Some(value: T) {

    /** The value, or `default` when absent. */
    function GetOr(default: T): T {
      if Some? then value else default
    }
  }

  /** The outcome of a step that may throw: `Err` carries the error's message. */
  datatype Result<T> = Ok(value: T) | Err(message: string)
}
