/** A value that may be absent: the model's stand-in for a TypeScript `T | null`
    state slot and for an optional field of a decoded JSON reply. */
module Wrappers {

  datatype Option<+T> = None | Some(value: T) {

    /** The carried value, or `default` when there is none (JavaScript's `v || default`
        for a value that is never falsy when present). */
    function GetOr(default: T): T
    {
      match this
      case Some(v) => v
      case None => default
    }
  }
}
