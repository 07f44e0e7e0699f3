/** std::optional, as the generator uses it: a value or nothing, and value_or. */
module Optional {

  datatype Option<+T> = None | Some(value: T) {

    /** std::optional::value_or: the held value, or `default` when there is none. */
    function GetOr(default: T): (r: T)
      ensures Some? ==> r == value
      ensures None? ==> r == default
    {
      match this
      case Some(v) => v
      case None => default
    }
  }
}
