/** Optional values: a route parameter that may be absent, a lookup that may miss. */
module Wrappers {
  datatype Option<+T> = None | Some(value: T)

  /**
   * `param || fallback` for an optional string, as JavaScript evaluates it: an
   * absent value and the empty string are both falsy.
   */
  function OrElse(param: Option<string>, fallback: string): (s: string)
    ensures param.Some? && param.value != "" ==> s == param.value
    ensures param.None? || param.value == "" ==> s == fallback
  {
    if param.Some? && param.value != "" then param.value else fallback
  }
}
