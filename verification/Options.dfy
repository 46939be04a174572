/** The one optional-value type the other modules share. */
module Options {

  datatype Option<+T> = None | Some(value: T) {

    /** The value held, or `default` when there is none. */
    function GetOr(default: T): T {
      match this
      case Some(v) => v
      case None => default
    }

    /** This value, or `other` when there is none. */
    function Or(other: Option<T>): Option<T> {
      if Some? then this else other
    }
  }
}
