/** Values shared by every part of the model. */
module Common {

  /** A value that may be missing: JavaScript's `null`/`undefined`, or a library call that throws. */
  datatype Option<T> = None | Some(value: T)

  /** An account or contract address as the JavaScript code handles it: a plain string, compared exactly. */
  type Address = string

  /** JavaScript truthiness of an optional string: present and not the empty string. */
  predicate Truthy(s: Option<string>)
  {
    s.Some? && s.value != ""
  }
}
