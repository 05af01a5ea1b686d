/**
 * The few JavaScript value rules the two components rely on: a value that
 * may be `undefined` or `null`, the truthiness of a string-valued one, the
 * `||` default operator, and what a template literal prints for a value.
 */
module Js {

  /** A value that may be absent (`undefined` or `null`). */
  datatype Option<+T> = None | Some(value: T)

  /** JavaScript truthiness of a string that may be absent: absent and `""` are falsy. */
  predicate Truthy(v: Option<string>)
  {
    v.Some? && v.value != ""
  }

  /** `v || fallback` for a string that may be absent. */
  function OrElse(v: Option<string>, fallback: string): string
  {
    if Truthy(v) then v.value else fallback
  }

  /** What `${v}` prints: the string itself, or "undefined" when it is absent. */
  function TemplateText(v: Option<string>): string
  {
    match v
    case Some(s) => s
    case None => "undefined"
  }
}
