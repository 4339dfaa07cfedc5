/** JavaScript values the storefront relies on: optional fields and truthiness. */
module Js {

  /** A field that may be `undefined` (or `null`) in the running program. */
  datatype Option<+T> = None | Some(value: T)

  /** JavaScript truthiness of an optional string: `undefined` and `""` are falsy. */
  predicate Truthy(o: Option<string>)
  {
    o.Some? && o.value != ""
  }

  /** `a || b` on optional strings: `a` when it is truthy, otherwise `b` (even when `b` is falsy). */
  function Or(a: Option<string>, b: Option<string>): Option<string>
  {
    if Truthy(a) then a else b
  }

  /** `a || d` where `d` is a string literal. */
  function OrDefault(a: Option<string>, d: string): string
  {
    if Truthy(a) then a.value else d
  }
}
