/** Small shared datatypes. */
module Common {

  /** A value that may be absent: a missing DOM element, attribute or setting. */
  datatype Option<T> = None | Some(value: T) {
    function GetOr(default: T): T {
      match this
      case Some(v) => v
      case None => default
    }
  }
}
