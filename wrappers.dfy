/** The optional value used wherever the quiz reads something that may be
    missing: a dictionary key, a radio button left unselected, a reply that
    never arrived. */
module Wrappers {

  datatype Option<+T> = None | Some(value: T) {

    /** The value if present, otherwise the given default. */
    function GetOr(default: T): T {
      match this
      case Some(v) => v
      case None => default
    }
  }
}
