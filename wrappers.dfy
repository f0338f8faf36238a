/** Small value types for optional fields and for the outcome of a REST call. */
module Wrappers {

  /** A field that may be absent (`undefined` or `null`). */
  datatype Option<T> = None | Some(value: T)

  /** What an awaited REST call produced: a value, or a thrown error. */
  datatype Rest<T> = Resolved(value: T) | Rejected(reason: string)

  /** The settled state of an async provider method: it returned, or it rethrew `reason`. */
  datatype Outcome = Pass | Fail(reason: string)

  /** JavaScript truthiness of an optional string: present and not "". */
  predicate Truthy(o: Option<string>)
  {
    o.Some? && o.value != ""
  }
}
