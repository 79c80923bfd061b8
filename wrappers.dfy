/** Optional values: the model's counterpart of Python's `Optional[...]` and `None`. */
module Wrappers {

  datatype Option<+T> = None | Some(value: T) {

    /** The value when present, otherwise `default` (Python's `x or default` on a truthy x). */
    function GetOr(default: T): T
    {
      match this
      case Some(v) => v
      case None => default
    }
  }
}
