/** Values as the application's JavaScript sees them: a possibly absent value,
    and the truthiness tests the source applies to strings and numbers. */
module Js {

  /** `undefined` or `null` (None) versus a present value (Some). */
  datatype Option<T> = None | Some(value: T) {

    /** The value when present, otherwise `default` (the `x || default` idiom on objects). */
    function GetOr(default: T): T {
      match this
      case Some(v) => v
      case None => default
    }
  }

  /** A possibly absent string is truthy when it is present and not empty. */
  predicate StrTruthy(s: Option<string>) {
    s.Some? && s.value != ""
  }

  /** A possibly absent number is truthy when it is present and not zero (NaN is not modelled). */
  predicate NumTruthy(n: Option<int>) {
    n.Some? && n.value != 0
  }
}
