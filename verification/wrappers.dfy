/** The optional value used wherever the source reads a property, an argument or a
    table entry that may be missing (`null` or `undefined`). */
module Wrappers {

  datatype Option<+T> = None | Some(value: T) {

    function GetOr(default: T): T {
      match this
      case Some(v) => v
      case None => default
    }
  }
}
