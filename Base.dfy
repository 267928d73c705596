/** Values shared by every page: nullable values, JavaScript's `||` fallback and
    the routes the pages navigate to. */
module Base {

  /** A value that may be `null` or `undefined` in the page's state. */
  datatype Option<T> = None | Some(value: T)

  /** Where `router.push` sends the browser. */
  datatype Route = MainRoute | OnboardingRoute | StartRoute

  /** JavaScript truthiness of a nullable string: `null`, `undefined` and `""` are falsy. */
  predicate Truthy(s: Option<string>) {
    s.Some? && s.value != ""
  }

  /** `message || fallback` for a nullable message. */
  function OrElse(message: Option<string>, fallback: string): string {
    if Truthy(message) then message.value else fallback
  }

  /** `value || null` for a nullable string. */
  function NullIfFalsy(s: Option<string>): Option<string> {
    if Truthy(s) then s else None
  }

  /** What an API call of the earlier pages gave: the `{ success, error?.message }` body of
      the answer, or an exception. */
  datatype ApiOutcome = Response(success: bool, message: Option<string>) | Threw

  /** The error those pages show after the call: none on success, `error?.message || fallback`
      for a failed answer, the fallback when the call threw. A non-empty fallback makes every
      error visible (truthy). */
  function FailureMessage(outcome: ApiOutcome, fallback: string): (r: Option<string>)
    ensures r == None <==> outcome.Response? && outcome.success
    ensures outcome.Threw? ==> r == Some(fallback)
    ensures outcome.Response? && !outcome.success && !Truthy(outcome.message) ==> r == Some(fallback)
    ensures outcome.Response? && !outcome.success && Truthy(outcome.message) ==> r == outcome.message
    ensures r.Some? && fallback != "" ==> r.value != ""
  {
    match outcome
    case Response(success, message) => if success then None else Some(OrElse(message, fallback))
    case Threw => Some(fallback)
  }
}
