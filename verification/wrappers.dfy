/** Optional values: the model's stand-in for the nullable pointers of the source. */
module Wrappers {

  /** A value that may be absent, as a C pointer that may be null. */
  datatype Option<+T> = None | Some(value: T) {

    /** The encapsulated value, or `default` when there is none. */
    function GetOr(default: T): (r: T)
      ensures Some? ==> r == value
      ensures None? ==> r == default
    {
      match this
      case Some(v) => v
      case None => default
    }
  }
}
