/** Optional values and the outcome of calls into services outside the model. */
module Wrappers {

  datatype Option<+T> = None | Some(value: T) {
    /** The value, or `default` when there is none. */
    function GetOr(default: T): T {
      match this
      case Some(v) => v
      case None => default
    }
  }

  /** What a call into Stripe, the Supabase client or another edge function
      gave back: it threw (or reported an error), or it returned a value. */
  datatype Call<+T> = Throws | Returns(value: T)

  /** JavaScript truthiness of a string that may be null or undefined:
      present and not the empty string. */
  predicate Present(s: Option<string>) {
    s.Some? && s.value != ""
  }

  /** The two JavaScript values that stand for "no value". */
  datatype Nullish = Null | Undefined

  /** `${v}` in a template string: the string itself, or, when it is missing,
      the name of the missing value, "null" or "undefined". */
  function Interpolate(v: Option<string>, missing: Nullish): (t: string)
    ensures v.Some? ==> t == v.value
    ensures v.None? && missing == Null ==> t == "null"
    ensures v.None? && missing == Undefined ==> t == "undefined"
  {
    match v
    case Some(s) => s
    case None => if missing == Null then "null" else "undefined"
  }
}
