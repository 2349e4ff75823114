/** The optional value used throughout the model for JavaScript's `undefined`/`null`. */
module Optional {

  datatype Option<+T> = None | Some(value: T) {

    /** `x ?? d`: the value, or the fallback when absent. */
    function GetOr(fallback: T): T
    {
      match this
      case Some(v) => v
      case None => fallback
    }
  }
}
