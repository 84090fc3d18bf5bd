/** Optional values: sensor readings that were never reported and request fields that are missing. */
module Options {

  datatype Option<+T> = None | Some(value: T) {

    /** Python's `d.get(key, default)`: the value when present, otherwise `default`. */
    function GetOr(default: T): (r: T)
      ensures Some? ==> r == value
      ensures None? ==> r == default
    {
      match this
      case Some(v) => v
      case None => default
    }
  }
}
