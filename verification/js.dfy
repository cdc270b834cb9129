/** The few JavaScript value semantics the application relies on: fields that
    may be absent, the outcome of `JSON.parse`, truthiness of strings and the
    `a || fallback` idiom. */
module Js {

  /** A field of a loosely-typed object: absent (undefined) or present. */
  datatype Option<+T> = None | Some(value: T) {

    /** The value when present, `default` otherwise. */
    function GetOr(default: T): T {
      match this
      case Some(v) => v
      case None => default
    }
  }

  /** What a `JSON.parse` (or `response.json()`) followed by the reads the
      caller makes yields: the fields read, or the message of the error the
      parse or a read on a non-object value throws. */
  datatype Parsed<+T> = Parsed(value: T) | Malformed(message: string)

  /** A string-valued field is truthy when present and not empty. */
  predicate Truthy(o: Option<string>) {
    o.Some? && o.value != ""
  }

  /** `field || fallback` for an optional string field. */
  function OrElse(o: Option<string>, fallback: string): string {
    if Truthy(o) then o.value else fallback
  }

  /** `s || fallback` for a string that is always present. */
  function Or(s: string, fallback: string): string {
    if s != "" then s else fallback
  }
}
