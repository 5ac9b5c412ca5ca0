/** The value-or-nothing type used wherever the system returns `undefined`. */
module Optional {

  datatype Option<+T> = None | Some(value: T) {

    /**
     The encapsulated value, or `default` when there is none: JavaScript's `x ?? d`.
     The pages write `x || 0`, which differs only for falsy values; the one falsy
     value they reach is 0, which `|| 0` also maps to 0.
     */
    function GetOr(default: T): T {
      match this
      case Some(v) => v
      case None => default
    }
  }
}
