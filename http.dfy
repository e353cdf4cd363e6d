/** The observable part of an HTTP reply: its status code and the shape of
    its body. `T` is the type of the success entity a handler writes. */
module Http {
  import opened Common

  /** Bodies the handlers write. */
  datatype Body<T> =
      /** Java's `MagicAuthErrorResponse` built by its builder; absent fields are null. */
    | JavaErrorBody(error: Option<string>, message: Option<string>,
                    requestId: Option<string>, details: Option<seq<(string, JsonValue)>>)
      /** Go's `ErrorResponse` struct. */
    | GoErrorBody(response: ErrorResponse)
      /** A JSON document the handler builds itself (`Map.of`, a Go map literal) or relays. */
    | JsonBody(value: JsonValue)
      /** The success entity, serialised as it is. */
    | Entity(entity: T)
      /** An upstream body relayed as raw text. */
    | RawBody(text: string)
      /** A plain-text body, as Go's `http.Error` writes. */
    | TextBody(text: string)
      /** No body (204). */
    | NoBody
      /** An exception escaped the Java handler; the container writes its own 500 page. */
    | ContainerError
      /** A Go handler panicked; `net/http` recovers, logs, and drops the
          connection without a reply. */
    | Dropped

  /** Go's `ErrorResponse`; `requestId` and `details` are left out of the
      JSON text when empty. `None` details is a nil map. */
  datatype ErrorResponse = ErrorResponse(error: string, message: string, requestId: string,
                                         details: Option<map<string, JsonValue>>)

  datatype Reply<T> = Reply(status: int, body: Body<T>)

  const OK := 200
  const NoContent := 204
  const BadRequest := 400
  const Forbidden := 403
  const NotFound := 404
  const MethodNotAllowed := 405
  const InternalServerError := 500
  const ServiceUnavailable := 503

  /** What a Java handler answers when an exception escapes it. */
  function Escaped<T>(): Reply<T>
  {
    Reply(InternalServerError, ContainerError)
  }

  /** What a Go handler answers when it panics; no status line is written. */
  function Panicked<T>(): Reply<T>
  {
    Reply(0, Dropped)
  }

  /** `http.Error(w, "Method not allowed", 405)`. */
  function GoMethodNotAllowed<T>(): Reply<T>
  {
    Reply(MethodNotAllowed, TextBody("Method not allowed"))
  }

  /** `Map.of(k1, v1, k2, v2)`, the only arity the handlers use: `None` when
      a value is null, because `Map.of` throws NullPointerException on a null
      value (and on equal keys, which no call site passes). Otherwise the
      object holds exactly the two members. */
  function MapOf(k1: string, v1: Option<JsonValue>, k2: string, v2: Option<JsonValue>): (r: Option<JsonValue>)
    requires k1 != k2
    ensures r.Some? <==> v1.Some? && v2.Some?
    ensures r.Some? ==> r.value == JObject([(k1, v1.value), (k2, v2.value)])
  {
    if v1.Some? && v2.Some? then Some(JObject([(k1, v1.value), (k2, v2.value)])) else None
  }

  /** A string value, or null. */
  function Str(s: Option<string>): Option<JsonValue>
  {
    if s.Some? then Some(JString(s.value)) else None
  }

  /** The reply a Java handler gives for a `Map.of` body: the body when it
      was built, else the container's error page. */
  function JavaReply<T>(status: int, body: Option<JsonValue>): (r: Reply<T>)
    ensures body.Some? ==> r == Reply(status, JsonBody(body.value))
    ensures body.None? ==> r == Escaped()
  {
    if body.Some? then Reply(status, JsonBody(body.value)) else Escaped()
  }
}
