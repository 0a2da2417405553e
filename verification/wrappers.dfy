/** The optional value returned by the printer's lookups (std::optional, or a
    pointer that may be null). */
module Wrappers {

  datatype Option<+T> = None | Some(value: T) {

    /** The value held, or `default` when there is none (std::optional::value_or). */
    function GetOr(default: T): T {
      match this
      case Some(v) => v
      case None => default
    }
  }
}
