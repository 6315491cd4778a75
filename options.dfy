/** An optional value: an absent prop, a missing field or no alert. */
module Options {

  datatype Option<+T> = None | Some(value: T) {

    /** The value, or `default` when absent (a defaulted prop). */
    function GetOr(default: T): (r: T)
      ensures Some? ==> r == value
      ensures None? ==> r == default
    {
      match this
      case Some(v) => v
      case None => default
    }
  }
}
