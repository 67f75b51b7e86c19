/** An optional value: Swift's `T?`. */
module Optional {

  datatype Option<+T> = None | Some(value: T) {

    /** Swift's nil-coalescing `x ?? default`. */
    function GetOr(default: T): (r: T)
      ensures Some? ==> r == value
      ensures None? ==> r == default
    {
      match this
      case Some(v) => v
      case None => default
    }
  }
}
