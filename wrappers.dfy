/** Optional values, results, and the outcome of a call to an outside service. */
module Wrappers {

  datatype Option<+T> = None | Some(value: T) {
    function GetOr(default: T): T {
      match this
      case Some(v) => v
      case None => default
    }
  }

  datatype Result<+T, +E> = Ok(value: T) | Err(error: E) {
    predicate IsFailure() {
      Err?
    }
  }

  /** What an awaited `fetch` (or SDK call) hands back: a 2xx reply with its
      decoded body, a non-2xx reply with its status and body, or an exception. */
  datatype Reply<+T> = Success(data: T) | NotOk(status: int, body: string) | Throws

  /** `x || d` for an optional string: an absent or empty string is falsy. */
  function OrElse(s: Option<string>, d: string): string {
    if s.Some? && s.value != "" then s.value else d
  }

  /** JavaScript truthiness of an optional string. */
  predicate Truthy(s: Option<string>) {
    s.Some? && s.value != ""
  }
}
