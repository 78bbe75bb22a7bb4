/**
 * Optional values (TypeScript's `T | undefined` and `T | null`), the
 * truthiness JavaScript gives an optional string, and the toast
 * notifications the components raise.
 */
module Options {

  datatype Option<+T> = None | Some(value: T) {

    /** The value, or `default` when absent: TypeScript's `x ?? default`. */
    function GetOr(default: T): (r: T)
      ensures Some? ==> r == value
      ensures None? ==> r == default
    {
      match this
      case Some(v) => v
      case None => default
    }
  }

  /** An optional string is truthy when it is present and not "". */
  predicate Truthy(s: Option<string>)
  {
    s.Some? && s.value != ""
  }

  /** `a || b` on optional strings: `a` when it is truthy, otherwise `b`. */
  function OrElse(a: Option<string>, b: Option<string>): (r: Option<string>)
    ensures Truthy(a) ==> r == a
    ensures !Truthy(a) ==> r == b
  {
    if Truthy(a) then a else b
  }

  /** A `react-hot-toast` notification. */
  datatype Toast = ToastSuccess(message: string) | ToastError(message: string)
}
