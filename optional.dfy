/** An optional value: the model's stand-in for a JavaScript value that may be `null` or `undefined`. */
module Optional {
  datatype Option<+T> = None | Some(value: T) {
    function GetOr(default: T): T {
      match this
      case Some(v) => v
      case None => default
    }
  }
}
