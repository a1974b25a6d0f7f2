/** A field of the country API's JSON objects that may be missing
    (`undefined`) or `null`. */
module Options {

  datatype Option<T> = None | Some(value: T) {

    /** The field's value when present, `default` otherwise. This is the
        source's `x || default` whenever the only falsy value `x` can hold
        equals `default` (`''` for strings, `0` for numbers). */
    function ValueOr(default: T): T {
      match this
      case Some(v) => v
      case None => default
    }
  }
}
