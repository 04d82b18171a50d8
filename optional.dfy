/** A value that may be missing: JavaScript's `undefined`/`null` for the fields and
    lookups of this model. */
module Optional {

  datatype Option<+T> = None | Some(value: T) {

    /** The value, or `default` when it is missing. */
    function GetOr(default: T): T {
      match this
      case Some(v) => v
      case None => default
    }
  }
}
