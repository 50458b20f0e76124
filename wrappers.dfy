/** The optional-value datatype used for every field that TypeScript marks with `?`
    or types as `T | undefined`: `None` is `undefined` (or an absent property). */
module Wrappers {

  datatype Option<+T> = None | Some(value: T) {

    /** The value, or `default` when absent: TypeScript's `x ?? default`. */
    function GetOr(default: T): (r: T)
      ensures Some? ==> r == value
      ensures None? ==> r == default
    {
      match this
      case Some(v) => v
      case None => default
    }
  }

  /** Right-biased choice, as in an object spread `{ ...base, ...over }` for one property:
      the property of `over` wins when it is present. */
  function Or<T>(over: Option<T>, base: Option<T>): (r: Option<T>)
    ensures over.Some? ==> r == over
    ensures over.None? ==> r == base
  {
    if over.Some? then over else base
  }
}
