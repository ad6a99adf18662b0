/** Optional values and the one piece of JavaScript truthiness the reporter relies on. */
module Wrappers {

  /** A value that may be absent (`undefined` in the reporter's options). */
  datatype Option<+T> = None | Some(value: T)

  /** An optional string is truthy in JavaScript exactly when it is present and non-empty. */
  predicate Truthy(s: Option<string>) {
    s.Some? && s.value != ""
  }
}
