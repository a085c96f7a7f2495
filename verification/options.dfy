/** A minimal optional-value type shared by every module of the model. */
module Options {

  /** `None` stands for JavaScript's `undefined` (an absent key, a missing value). */
  datatype Option<+T> = None | Some(value: T) {

    /** The carried value, or `default` when absent. */
    function GetOr(default: T): T
    {
      match this
      case Some(v) => v
      case None => default
    }
  }
}
