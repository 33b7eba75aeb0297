/** Optional values and the JavaScript truthiness rules the front end leans on
    (`a || b`, `if (!x)`, `x?.y`). */
module Values {

  /** A value that may be `null` or `undefined` in the source. */
  datatype Option<+T> = None | Some(value: T) {

    /** The held value, or `default` when absent. */
    function GetOr(default: T): T {
      match this
      case Some(v) => v
      case None => default
    }
  }

  /** The outcome of a call that may throw; a thrown error carries its message. */
  datatype Result<+T> = Ok(value: T) | Err(message: string)

  /** JavaScript truthiness of an optional string: present and not empty. */
  predicate Truthy(s: Option<string>) {
    s.Some? && s.value != ""
  }

  /** `s || fallback` where `s` is an optional string. */
  function OrElse(s: Option<string>, fallback: string): (r: string)
    ensures Truthy(s) ==> r == s.value
    ensures !Truthy(s) ==> r == fallback
  {
    if Truthy(s) then s.value else fallback
  }

  /** JavaScript truthiness of an optional number: present and not zero. */
  predicate TruthyNumber(n: Option<int>) {
    n.Some? && n.value != 0
  }
}
