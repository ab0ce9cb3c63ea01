/** Optional values and handler outcomes shared by every module of the model. */
module Wrappers {

  /** A document identifier (a MongoDB ObjectId in its hexadecimal form). */
  type Id = string

  /** A value that may be absent: an optional request field, a missing header, a null in the store. */
  datatype Option<+T> = None | Some(value: T)

  /** What a request handler answers: a value (HTTP 200/201) or an HTTP error status. */
  datatype Result<+T> = Ok(value: T) | Err(status: int)

  /** JavaScript truthiness of an optional string: absent and "" are both falsy. */
  predicate Truthy(s: Option<string>) {
    s.Some? && s.value != ""
  }

  /** `a || b` on optional strings: `a` when it is truthy, `b` otherwise. */
  function OrElse(a: Option<string>, b: string): (r: string)
    ensures Truthy(a) ==> r == a.value
    ensures !Truthy(a) ==> r == b
  {
    if a.Some? && a.value != "" then a.value else b
  }
}
