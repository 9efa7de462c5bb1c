/** JavaScript values as the components see them: optional fields, the
    outcome of an awaited call, and the truthiness rules behind `a || b`
    and `${a}` on strings. */
module Values {

  /** A field that may be `null`/`undefined`. */
  datatype Option<+T> = None | Some(value: T)

  /** The outcome of an awaited call: it returned a value or threw an
      `Error` carrying a message. */
  datatype Call<+T> = Returned(value: T) | Threw(message: string)

  /** `!!s` for an optional string: present and non-empty. */
  predicate Truthy(s: Option<string>)
  {
    s.Some? && s.value != ""
  }

  /** `s || fallback` for an optional string. */
  function OrElse(s: Option<string>, fallback: string): (r: string)
    ensures Truthy(s) ==> r == s.value
    ensures !Truthy(s) ==> r == fallback
  {
    if s.Some? && s.value != "" then s.value else fallback
  }

  /** `${s}` in a template literal: a missing value is rendered as the
      text "undefined". */
  function Show(s: Option<string>): (r: string)
    ensures s.Some? ==> r == s.value
    ensures s.None? ==> r == "undefined"
  {
    match s
    case Some(v) => v
    case None => "undefined"
  }
}
