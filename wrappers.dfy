/** Optional values (Python's `None` versus a present value) and HTTP-style outcomes. */
module Wrappers {

  datatype Option<+T> = None | Some(value: T) {

    /** The value, or `default` when absent (Python's `d.get(key, default)`). */
    function GetOr(default: T): T {
      match this
      case Some(v) => v
      case None => default
    }
  }

  /** Python truthiness of an optional text: present and not the empty string. */
  predicate Truthy(s: Option<string>) {
    s.Some? && s.value != ""
  }

  /** Python truthiness of an optional JSON boolean read with `.get(key, False)`. */
  predicate Flag(b: Option<bool>) {
    b == Some(true)
  }

  /** A successful answer, or the HTTP status of a refused one. */
  datatype Outcome<T> = Success(value: T) | Failure(status: nat)

  const BadRequest: nat := 400
  const NotFound: nat := 404
  const Conflict: nat := 409
}
