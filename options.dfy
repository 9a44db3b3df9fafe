/** An optional value: used for the weighted pick that may fall through its loop
    and for a high score that may be missing from storage. */
module Options {

  datatype Option<+T> = None | Some(value: T) {

    /** The value, or `default` when there is none. */
    function GetOr(default: T): T {
      match this
      case Some(v) => v
      case None => default
    }
  }
}
