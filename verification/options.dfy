/** Kotlin's nullable values: `null` or a present value, with the elvis operator `?:`. */
module Options {

  datatype Option<+T> = None | Some(value: T) {

    /** `x ?: default` */
    function OrElse(default: T): (r: T)
      ensures Some? ==> r == value
      ensures None? ==> r == default
    {
      match this
      case Some(v) => v
      case None => default
    }
  }
}
