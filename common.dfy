/** Values shared by every part of the model: optional values, results of
    remote calls, and the JavaScript values a `catch` block can receive. */
module Common {

  datatype Option<T> = None | Some(value: T)

  datatype Result<T, E> = Ok(value: T) | Err(error: E)

  /** The three built-in error classes the front end can see thrown. */
  datatype ErrorKind = PlainError | TypeError | SyntaxError

  /** What a `catch (err)` receives: an `Error` instance (of some class,
      with its message) or any other thrown value. */
  datatype Thrown = Error(kind: ErrorKind, message: string) | NotAnError

  /** `err instanceof Error ? err.message : fallback`, the message every
      handler of the front end stores after a failed call. */
  function MessageOr(e: Thrown, fallback: string): (m: string)
    ensures e.Error? ==> m == e.message
    ensures e.NotAnError? ==> m == fallback
  {
    match e
    case Error(_, msg) => msg
    case NotAnError => fallback
  }

  /** A component's copy of remote data after a load: the loaded value when
      the call succeeded, the previous value when it failed. */
  function Reloaded<T>(before: T, outcome: Result<T, Thrown>): (after: T)
    ensures outcome.Ok? ==> after == outcome.value
    ensures outcome.Err? ==> after == before
  {
    if outcome.Ok? then outcome.value else before
  }

  /** The error a component shows after a load: none when the call
      succeeded, the thrown message (or the fallback) when it failed. */
  function LoadError<T>(outcome: Result<T, Thrown>, fallback: string): (m: string)
    ensures outcome.Ok? ==> m == ""
    ensures outcome.Err? ==> m == MessageOr(outcome.error, fallback)
  {
    if outcome.Ok? then "" else MessageOr(outcome.error, fallback)
  }

  /** JavaScript truthiness of a `string | null` value. */
  predicate Truthy(s: Option<string>)
  {
    s.Some? && s.value != ""
  }
}
