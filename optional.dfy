/** JavaScript's optional values (`undefined`, `null`, `x?: T`) as a closed datatype. */
module Optional {

  datatype Option<+T> = None | Some(value: T) {

    /** `x ?? d` / `x || d` for a value whose present form is never falsy. */
    function GetOr(default: T): (r: T)
      ensures Some? ==> r == value
      ensures None? ==> r == default
    {
      match this
      case Some(v) => v
      case None => default
    }
  }
}
