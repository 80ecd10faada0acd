/**
 Shared vocabulary for the front-end model: optional values, results, the
 values a JavaScript `throw` can carry, the truthiness rules the components
 lean on, and the abstract outcome of one `fetch`.
 */
module Common {

  /** A JavaScript value that may be `null`/`undefined` (None) or present. */
  datatype Option<+T> = None | Some(value: T)

  /** A Promise that resolves (Ok) or rejects (Err). */
  datatype Result<+T, +E> = Ok(value: T) | Err(error: E)

  /** The built-in error classes the model distinguishes. */
  datatype ErrorKind = PlainError | TypeError | SyntaxError

  /** What a `catch` clause receives: an `Error` instance, or some other value. */
  datatype Thrown = ErrorObject(kind: ErrorKind, message: string) | NonError

  /** `e instanceof Error ? e.message : fallback` */
  function MessageOr(e: Thrown, fallback: string): (m: string)
    ensures e.ErrorObject? ==> m == e.message
    ensures e.NonError? ==> m == fallback
  {
    match e
    case ErrorObject(_, msg) => msg
    case NonError => fallback
  }

  /** `e.message || fallback`: also falls back on an empty message. */
  function MessageOrElse(e: Thrown, fallback: string): (m: string)
    ensures m == fallback || (e.ErrorObject? && m == e.message && m != "")
    ensures e.ErrorObject? && e.message != "" ==> m == e.message
  {
    match e
    case ErrorObject(_, msg) => if msg != "" then msg else fallback
    case NonError => fallback
  }

  /**
   The TypeError a V8-based runtime raises when code reads property `prop`
   of `undefined`.
   */
  function ReadOfUndefined(prop: string): Thrown
  {
    ErrorObject(TypeError, "Cannot read properties of undefined (reading '" + prop + "')")
  }

  /** A string-valued field is truthy exactly when it is present and non-empty. */
  predicate Truthy(s: Option<string>)
  {
    s.Some? && s.value != ""
  }

  /** `s || d` for an optional string. */
  function OrElse(s: Option<string>, d: string): (r: string)
    ensures Truthy(s) ==> r == s.value
    ensures !Truthy(s) ==> r == d
  {
    if Truthy(s) then s.value else d
  }

  /** `s || null` for an optional string: empty strings collapse to null. */
  function OrNull(s: Option<string>): (r: Option<string>)
    ensures r.Some? <==> Truthy(s)
    ensures r.Some? ==> r == s
  {
    if Truthy(s) then s else None
  }

  /** The body of a response read with `response.json()`. */
  datatype Parsed<+J> = Parsed(value: J) | Unparseable(message: string)

  /**
   The outcome of one `fetch`: the promise rejected (no response at all),
   or a response arrived with its `ok` flag, status, raw text and the
   result of parsing that text as JSON.
   */
  datatype HttpOutcome<+J> =
    | FetchThrew(error: Thrown)
    | HttpReply(ok: bool, status: nat, text: string, body: Parsed<J>)
}
