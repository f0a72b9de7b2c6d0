/** JavaScript values as the controllers and the client code see them: a
    property that may be missing from a JSON body, and the truthiness that
    `||`, `&&` and `if (x)` apply to it. */
module Js {

  /** A property that may be `undefined`. */
  datatype Option<+T> = None | Some(value: T)

  /** Truthiness of an optional string: `undefined` and `""` are falsy, every
      other string is truthy. */
  predicate Truthy(v: Option<string>) {
    v.Some? && v.value != ""
  }

  /** `v || fallback` for an optional string. */
  function OrElse(v: Option<string>, fallback: string): string {
    if Truthy(v) then v.value else fallback
  }

  /** `v || fallback` for an optional array: every array, `[]` included, is
      truthy, so only a missing array takes the fallback. */
  function ArrayOrElse<T>(v: Option<seq<T>>, fallback: seq<T>): seq<T> {
    if v.Some? then v.value else fallback
  }
}
