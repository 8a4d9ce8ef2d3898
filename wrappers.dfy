/** Java's nullable references, as values. */
module Wrappers {

  /** `None` stands for a Java `null`. */
  datatype Option<+T> = None | Some(value: T) {

    /** The value, or `default` when it is null (StringUtils.defaultString and friends). */
    function GetOr(default: T): T {
      match this
      case Some(v) => v
      case None => default
    }
  }

  /** How a Java call ends: normally with a value, by a runtime exception that
      nothing catches (a NullPointerException, a NumberFormatException), or, in
      a model whose loop is bounded by fuel, with the fuel spent. */
  datatype Outcome<+T> = Done(value: T) | Crashed | OutOfFuel
}
