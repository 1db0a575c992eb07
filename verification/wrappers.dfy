/** The optional values the model uses in place of C#'s nullable references. */
module Wrappers {

  /** `None` stands for a null reference, `Some(v)` for a non-null one. */
  datatype Option<+T> = None | Some(value: T) {

    /** The wrapped value, or `default` for None (the `??` operator). */
    function GetOr(default: T): T {
      match this
      case Some(v) => v
      case None => default
    }
  }
}
