/** The one optional-value type of the model: an option the caller may leave out. */
module Wrappers {

  /** `None` stands for an option the caller left `null` or `undefined`. */
  datatype Option<+T> = None | Some(value: T) {

    /** The supplied value, or `default` when nothing was supplied. */
    function GetOr(default: T): T
    {
      match this
      case Some(v) => v
      case None => default
    }
  }
}
