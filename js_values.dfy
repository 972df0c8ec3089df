/**
 * The few JavaScript value rules the task-list client depends on: a value
 * that may be absent, the truthiness of a string, and the `a || b` fallback
 * on strings.
 */
module JsValues {

  /** A value that may be missing (`null`/`undefined` in the client). */
  datatype Option<+T> = None | Some(value: T)

  /** JavaScript truthiness of a string that may be absent: present and non-empty. */
  predicate Truthy(s: Option<string>) {
    s.Some? && s.value != ""
  }

  /** `a || b` where `a` is an optional string and `b` a string. */
  function Or(a: Option<string>, b: string): (r: string)
    ensures Truthy(a) ==> r == a.value
    ensures !Truthy(a) ==> r == b
  {
    if a.Some? && a.value != "" then a.value else b
  }

  /** With the empty string as fallback, `a || ""` just reads the value or defaults it. */
  lemma OrEmptyIsDefault(a: Option<string>)
    ensures Or(a, "") == (if a.Some? then a.value else "")
  {
  }
}
