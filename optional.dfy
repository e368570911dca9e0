/** The Option type used for values that may be missing: an unset minute or
    bucket index, a `new_state` that is absent, a lookup that found nothing. */
module Optional {

  datatype Option<+T> = None | Some(value: T) {

    /** The wrapped value, or `default` when there is none. */
    function GetOr(default: T): T {
      match this
      case Some(v) => v
      case None => default
    }
  }
}
