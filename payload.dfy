/** The decoded JSON request body as both webhook handlers see it after
    `await request.json()`, and the dictionary lookups they perform on it. */
module Payload {

  datatype Option<+T> = None | Some(value: T)

  /** A decoded JSON value. Numbers, booleans and null are never inspected by
      the handlers beyond "not a string, not a list, not an object", so they
      share one constructor. */
  datatype JValue =
    | JString(str: string)
    | JArray(items: seq<JValue>)
    | JObject(fields: map<string, JValue>)
    | JScalar

  /** Why a request ends in the handler's `except` clause, that is in an
      HTTP 500 response carrying the exception text. */
  datatype Fault =
    | NotAnObject                   // the body is not a JSON object
    | NotAMapping(key: string)      // `.get` called on a value that is not a dict
    | NotAString(key: string)       // a field read as text holds another JSON value
    | NotIterable(key: string)      // `alerts` is null, a number or a boolean
    | ElementNotAMapping(key: string) // an element of `alerts` is not a dict
    | SubjectUnbound                // `email_subject` used before assignment

  datatype Result<+T> = Ok(value: T) | Err(fault: Fault) {
    predicate IsFailure() { Err? }
    function PropagateFailure<U>(): Result<U> requires Err? { Err(fault) }
    function Extract(): T requires Ok? { value }
  }

  /** `obj.get(key, default)` */
  function Get(obj: map<string, JValue>, key: string, default: JValue): JValue {
    if key in obj then obj[key] else default
  }

  /** `obj.get(key, default)` for a field the handler uses as text. */
  function TextField(obj: map<string, JValue>, key: string, default: string): Result<string> {
    if key !in obj then Ok(default)
    else if obj[key].JString? then Ok(obj[key].str)
    else Err(NotAString(key))
  }

  /** `obj.get(key, {})` for a field the handler then calls `.get` on. */
  function ObjectField(obj: map<string, JValue>, key: string): Result<map<string, JValue>> {
    if key !in obj then Ok(map[])
    else if obj[key].JObject? then Ok(obj[key].fields)
    else Err(NotAMapping(key))
  }

  /** The field is absent or holds a string: reading it as text succeeds. */
  predicate TextOrMissing(obj: map<string, JValue>, key: string) {
    key !in obj || obj[key].JString?
  }

  /** The field is absent or holds an object: calling `.get` on it succeeds. */
  predicate ObjectOrMissing(obj: map<string, JValue>, key: string) {
    key !in obj || obj[key].JObject?
  }

  /** The text a well-typed field holds, or the default when it is absent. */
  function StringOr(obj: map<string, JValue>, key: string, default: string): string {
    if key in obj && obj[key].JString? then obj[key].str else default
  }

  /** The members of a nested object, or none when it is absent. */
  function GroupOf(obj: map<string, JValue>, key: string): map<string, JValue> {
    if key in obj && obj[key].JObject? then obj[key].fields else map[]
  }
}
