/**
 * The optional value used wherever the source works with a Java reference
 * that may be null, or a stored preference that may be absent.
 */
module Wrappers {

  datatype Option<+T> = None | Some(value: T) {

    /** The carried value, or `default` when there is none. */
    function GetOr(default: T): T {
      match this
      case Some(v) => v
      case None => default
    }
  }
}
