/** Nullable values, and the two Kotlin idioms over them that the translator uses:
    `x.takeIf { p(it) }` and the elvis operator `a ?: b`. */
module Wrappers {

  /** A nullable value: `None` plays the part of Kotlin's `null`. */
  datatype Option<+T> = None | Some(value: T) {

    /** The elvis operator `this ?: default`. */
    function GetOr(default: T): T {
      match this
      case Some(v) => v
      case None => default
    }
  }

  /** Kotlin's `x.takeIf(p)`: `x` itself when it satisfies `p`, otherwise null. */
  function TakeIf<T>(x: T, p: T -> bool): Option<T> {
    if p(x) then Some(x) else None
  }
}
