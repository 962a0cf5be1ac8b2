/** The two shapes the client uses for "maybe absent" (`T | null | undefined`)
    and "may fail" (a rejected promise or a thrown Error). */
module Wrappers {

  datatype Option<+T> = None | Some(value: T) {
    /** JavaScript's `x ?? default` */
    function GetOr(default: T): T {
      match this
      case Some(v) => v
      case None => default
    }
  }

  datatype Result<+T, +E> = Ok(value: T) | Err(error: E)

  /** JavaScript truthiness of an optional string: present and non-empty. */
  predicate Truthy(s: Option<string>) {
    s.Some? && s.value != []
  }
}
