/** Values shared by every model and controller: identifiers, optional values and handler outcomes. */
module Common {

  /** The text of a document identifier as a request carries it (normally the hex form of an ObjectId). */
  type Id = string

  /** An optional value: a request field that may be absent, or a reference that may be unset. */
  datatype Option<+T> = None | Some(value: T) {
    /** The value, or `default` when there is none (JavaScript's destructuring default). */
    function GetOr(default: T): T {
      match this
      case Some(v) => v
      case None => default
    }
  }

  /** What a handler sends back: a success status with its payload, or an error status without one. */
  datatype Outcome<+T> = Ok(code: int, value: T) | Err(code: int)

  /** JavaScript truthiness of an optional string: both an absent value and "" are falsy. */
  predicate Truthy(s: Option<string>) {
    s.Some? && s.value != ""
  }

  /** JavaScript truthiness of an optional number: both an absent value and 0 are falsy. */
  predicate TruthyNumber(x: Option<real>) {
    x.Some? && x.value != 0.0
  }

  /** JavaScript truthiness of an optional integer (a price in cents). */
  predicate TruthyInt(x: Option<int>) {
    x.Some? && x.value != 0
  }

  /** No identifier occurs twice in `s`. */
  predicate Distinct<T(==)>(s: seq<T>) {
    forall i, j :: 0 <= i < j < |s| ==> s[i] != s[j]
  }
}
