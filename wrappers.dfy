/** Optional values: a key that a record or a partial update may leave out,
    or a storage slot that holds nothing. */
module Wrappers {

  datatype Option<+T> = None | Some(value: T) {

    /** The wrapped value, or `default` when there is none. */
    function GetOr(default: T): T {
      match this
      case Some(v) => v
      case None => default
    }

    /** The value one key takes in an object spread `{ ...this, ...other }`:
        `other` wins when it carries the key. */
    function Override(other: Option<T>): Option<T> {
      if other.Some? then other else this
    }
  }
}
