/** The exception-to-reply mapping both Java controllers repeat in their
    `prepare` and `process` handlers, the environment it depends on, and the
    HTTP client answer both status proxies relay. */
module JavaErrors {
  import opened Common
  import opened Http

  /** The message of every opaque 500. */
  const UnexpectedErrorText := "An unexpected error occurred"

  /** What a status poll gets from `java.net.http.HttpClient`: a failure
      (bad URI, I/O error) with the exception's message, or a status line and
      body. */
  datatype Upstream = Failed(message: Option<string>) | Answered(status: int, body: string)

  /** `getEnvironment()`: the active Spring profile, "production" when unset. */
  function Environment(profile: Option<string>): (r: string)
    ensures profile.Some? ==> r == profile.value
    ensures profile.None? ==> r == "production"
  {
    if profile.Some? then profile.value else "production"
  }

  /** `ResponseEntity.status(code)`: Spring accepts three-digit codes only
      and otherwise throws IllegalArgumentException, which, raised inside a
      catch block, escapes the handler. */
  function StatusReply<T>(status: int, body: Body<T>): (r: Reply<T>)
    ensures 100 <= status <= 999 ==> r == Reply(status, body)
    ensures !(100 <= status <= 999) ==> r == Escaped()
  {
    if 100 <= status <= 999 then Reply(status, body) else Escaped()
  }

  /** `details` of the INTERNAL_ERROR reply: `Map.of("message", e.getMessage())`
      in development, null elsewhere. The outer `None` is `Map.of` throwing
      on a null message. */
  function InternalDetails(environment: string, message: Option<string>): (r: Option<Option<seq<(string, JsonValue)>>>)
    ensures environment != "development" ==> r == Some(None)
    ensures environment == "development" && message.Some? ==> r == Some(Some([("message", JString(message.value))]))
    ensures environment == "development" && message.None? ==> r.None?
  {
    if environment != "development" then Some(None)
    else if message.Some? then Some(Some([("message", JString(message.value))]))
    else None
  }

  /** The three catch blocks: an SDK error is relayed with its own status,
      code, message, request ID and details; IllegalArgumentException becomes
      400 VALIDATION_ERROR with its message; anything else becomes 500
      INTERNAL_ERROR with a fixed message, revealing the exception's message
      only in development. */
  function ServiceErrorReply<T>(e: Thrown, environment: string): (r: Reply<T>)
    ensures e.MagicalAuthError? ==>
              r == StatusReply(e.status, JavaErrorBody(e.code, e.message, e.requestId, e.details))
    ensures e.IllegalArgument? ==>
              r == Reply(BadRequest, JavaErrorBody(Some("VALIDATION_ERROR"), e.message, None, None))
    ensures (e.IllegalState? || e.OtherException?) && InternalDetails(environment, e.message).Some? ==>
              r == Reply(InternalServerError, JavaErrorBody(Some("INTERNAL_ERROR"), Some(UnexpectedErrorText),
                                                            None, InternalDetails(environment, e.message).value))
    ensures (e.IllegalState? || e.OtherException?) && InternalDetails(environment, e.message).None? ==>
              r == Escaped()
  {
    match e
    case MagicalAuthError(code, status, message, requestId, details) =>
      StatusReply(status, JavaErrorBody(code, message, requestId, details))
    case IllegalArgument(message) =>
      Reply(BadRequest, JavaErrorBody(Some("VALIDATION_ERROR"), message, None, None))
    case _ =>
      match InternalDetails(environment, e.message)
      case None => Escaped()
      case Some(details) =>
        Reply(InternalServerError, JavaErrorBody(Some("INTERNAL_ERROR"), Some(UnexpectedErrorText), None, details))
  }

  /** Outside development an unexpected exception never reaches the client:
      the reply is the fixed 500 body, whatever the exception said. */
  lemma {:induction false} InternalErrorsAreOpaqueOutsideDevelopment<T>(e: Thrown, environment: string)
    requires e.IllegalState? || e.OtherException?
    requires environment != "development"
    ensures ServiceErrorReply<T>(e, environment)
            == Reply(InternalServerError, JavaErrorBody(Some("INTERNAL_ERROR"), Some(UnexpectedErrorText), None, None))
  {
  }

  /** The mapping never answers with a success status: every reply is an
      error status, or the container's 500. */
  lemma {:induction false} ServiceErrorsAreErrors<T>(e: Thrown, environment: string)
    requires e.MagicalAuthError? ==> e.status >= 400
    ensures ServiceErrorReply<T>(e, environment).status >= 400
  {
  }
}
