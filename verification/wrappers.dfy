/** The optional value used wherever the C# source works with a nullable reference. */
module Wrappers {

  /** `None` stands for `null`; `Some(v)` for a non-null reference to `v`. */
  datatype Option<+T> = None | Some(value: T) {

    /** The value if present, otherwise `default` (C#'s `??` operator). */
    function GetOr(default: T): T
    {
      match this
      case Some(v) => v
      case None => default
    }
  }
}
