/** The handlers of the Go server (server/go): prepare, invoke, process and
    the status proxy, with the package-level client and session store as
    the fields of one `Server` object. SDK calls and the HTTP exchange are
    function parameters; the clock is the `now` argument. */
module GoMain {
  import opened Common
  import opened Http
  import opened Registry
  import opened GoShared
  import opened GoSessionStore
  import opened Text

  /** `sendErrorResponse`: the status, then the `ErrorResponse` with the
      request ID found in the details. */
  function SendErrorResponse<T>(status: int, code: string, message: string,
                                details: Option<map<string, JsonValue>>): (r: Reply<T>)
    ensures 100 <= status <= 999 ==> r == Reply(status, GoErrorBody(ErrorResponse(code, message, RequestIdOf(details), details)))
    ensures !(100 <= status <= 999) ==> r == Panicked()
  {
    WriteStatus(status, GoErrorBody(ErrorResponse(code, message, RequestIdOf(details), details)))
  }

  /** `handleGlideError`: an SDK error is answered with its own status (500
      for 0), code and message, and details that always report the original
      status; an SDK status outside 100..999 panics. Any other error is a
      500 UNEXPECTED_ERROR with the error's text and no details. */
  function HandleGlideError<T>(err: GoError): (r: Reply<T>)
    ensures err.OtherError? ==>
              r == Reply(InternalServerError, GoErrorBody(ErrorResponse("UNEXPECTED_ERROR", err.text, "", None)))
    ensures err.SdkError? && (err.status == 0 || 100 <= err.status <= 999) ==>
              r.status == (if err.status == 0 then InternalServerError else err.status)
              && r.body.GoErrorBody? && r.body.response.error == err.code && r.body.response.message == err.message
              && r.body.response.details.Some? && "status" in r.body.response.details.value
              && r.body.response.details.value["status"] == JInt(err.status)
              && r.body.response.details == GlideErrorCall(err).details
              && r.body.response.requestId == RequestIdOf(GlideErrorCall(err).details)
    ensures err.SdkError? && err.status != 0 && !(100 <= err.status <= 999) ==> r == Panicked()
  {
    var c := GlideErrorCall(err);
    SendErrorResponse(c.status, c.code, c.message, c.details)
  }

  /** An SDK error with status 0 is answered 500, and the reply still tells
      the client the original status. */
  lemma {:induction false} ZeroStatusBecomesInternalError<T>(err: GoError)
    requires err.SdkError? && err.status == 0
    ensures HandleGlideError<T>(err).status == InternalServerError
    ensures HandleGlideError<T>(err).body.response.details.value["status"] == JInt(0)
  {
  }

  const NotInitializedCode := "SDK_NOT_INITIALIZED"
  const NotInitializedText := "Glide SDK not initialized. Check your credentials."

  /** The decoded body of a process request; a missing string is "". */
  datatype ProcessBody = ProcessBody(useCase: string, session: JsonValue, credential: string)

  /** The SDK's phone-number answer; `response` is the rest of it. */
  datatype PhoneNumberResponse = PhoneNumberResponse(phoneNumber: string, response: JsonValue)

  /** What a successful process call writes. */
  datatype ProcessResult = PhoneNumberResult(phoneNumber: PhoneNumberResponse) | VerifyResult(verification: JsonValue)

  /** The text of the invoke handler's 200 answers. Go encodes map keys in
      sorted order. */
  function InvokeAnswer(key: string, value: string): (r: JsonValue)
    ensures r.JObject? && Member(r.members, "success") == Some(JBool(false))
    ensures key != "success" ==> Member(r.members, key) == Some(JString(value))
    ensures |r.members| == 2
  {
    JObject([(key, JString(value)), ("success", JBool(false))])
  }

  const SessionNotFoundText := "Session not found. It may have expired or prepare was not called."
  const RequiredFieldsText := "use_case, session, and credential are required"
  const InvalidUseCaseText := "Invalid use_case. Must be 'GetPhoneNumber' or 'VerifyPhoneNumber', got: "

  class Server {
    /** `glideClient != nil`: both OAuth2 credentials were non-empty at start. */
    const hasClient: bool
    const sessionStore: SessionStore

    constructor(clientId: string, clientSecret: string, sessionStore: SessionStore)
      ensures hasClient <==> clientId != "" && clientSecret != ""
      ensures this.sessionStore == sessionStore
    {
      hasClient := clientId != "" && clientSecret != "";
      this.sessionStore := sessionStore;
    }

    /** POST /api/phone-auth/prepare. After the method, client and body
        checks, the default PLMN is applied and the request sent (`sent`);
        on success the response is written and its status URL, when the
        SDK helper finds one, stored under the session key with a fresh TTL. */
    method PrepareHandler(httpMethod: string, body: Option<GoPrepareRequest>,
                          sdkPrepare: GoPrepareRequest -> GoResult<GoPrepareResponse>,
                          statusUrlOf: GoPrepareResponse -> string, now: int)
      returns (reply: Reply<GoPrepareResponse>, sent: Option<GoPrepareRequest>)
      modifies sessionStore
      ensures httpMethod != "POST" ==> reply == GoMethodNotAllowed()
      ensures httpMethod == "POST" && !hasClient ==> reply == SendErrorResponse(ServiceUnavailable, NotInitializedCode, NotInitializedText, None)
      ensures httpMethod == "POST" && hasClient && body.None? ==>
                reply == SendErrorResponse(BadRequest, "INVALID_REQUEST", "Invalid request body", None)
      ensures sent.Some? <==> httpMethod == "POST" && hasClient && body.Some?
      ensures sent.Some? ==> sent.value == WithDefaultPlmn(body.value)
      ensures sent.Some? && sdkPrepare(sent.value).Err? ==> reply == HandleGlideError(sdkPrepare(sent.value).error)
      ensures sent.Some? && sdkPrepare(sent.value).Ok? ==> reply == Reply(OK, Entity(sdkPrepare(sent.value).value))
      ensures sessionStore.sessionStore ==
                if sent.Some? && sdkPrepare(sent.value).Ok? && statusUrlOf(sdkPrepare(sent.value).value) != ""
                then old(sessionStore.sessionStore)[sdkPrepare(sent.value).value.sessionKey :=
                                                     FreshEntry(statusUrlOf(sdkPrepare(sent.value).value), now)]
                else old(sessionStore.sessionStore)
    {
      sent := None;
      if httpMethod != "POST" {
        reply := GoMethodNotAllowed();
        return;
      }
      if !hasClient {
        reply := SendErrorResponse(ServiceUnavailable, NotInitializedCode, NotInitializedText, None);
        return;
      }
      if body.None? {
        reply := SendErrorResponse(BadRequest, "INVALID_REQUEST", "Invalid request body", None);
        return;
      }
      var req := WithDefaultPlmn(body.value);
      sent := Some(req);
      var answer := sdkPrepare(req);
      if answer.Err? {
        reply := HandleGlideError(answer.error);
        return;
      }
      var response := answer.value;
      var statusUrl := statusUrlOf(response);
      if statusUrl != "" {
        sessionStore.StoreStatusUrl(response.sessionKey, statusUrl, now);
      }
      reply := Reply(OK, Entity(response));
    }

    /** POST /api/phone-auth/invoke. `body` is the decoded session ID, `None`
        when the body does not decode. The checks run in order (bad body,
        missing ID, no client) and every outcome, an SDK failure included,
        is answered 200. */
    function InvokeHandler(httpMethod: string, body: Option<string>, report: string -> GoResult<bool>): (r: Reply<JsonValue>)
      ensures httpMethod != "POST" ==> r == GoMethodNotAllowed()
      ensures httpMethod == "POST" ==> r.status == OK
      ensures httpMethod == "POST" && body.None? ==> r == Reply(OK, JsonBody(InvokeAnswer("reason", "invalid_request_body")))
      ensures httpMethod == "POST" && body == Some("") ==> r == Reply(OK, JsonBody(InvokeAnswer("reason", "missing_session_id")))
      ensures httpMethod == "POST" && body.Some? && body != Some("") && !hasClient ==>
                r == Reply(OK, JsonBody(InvokeAnswer("reason", "client_not_configured")))
      ensures httpMethod == "POST" && body.Some? && body != Some("") && hasClient ==>
                match report(body.value)
                case Ok(success) => r == Reply(OK, JsonBody(JObject([("success", JBool(success))])))
                case Err(e) => r == Reply(OK, JsonBody(InvokeAnswer("error", GoErrorText(e))))
    {
      if httpMethod != "POST" then GoMethodNotAllowed()
      else if body.None? then Reply(OK, JsonBody(InvokeAnswer("reason", "invalid_request_body")))
      else if body.value == "" then Reply(OK, JsonBody(InvokeAnswer("reason", "missing_session_id")))
      else if !hasClient then Reply(OK, JsonBody(InvokeAnswer("reason", "client_not_configured")))
      else match report(body.value)
           case Ok(success) => Reply(OK, JsonBody(JObject([("success", JBool(success))])))
           case Err(e) => Reply(OK, JsonBody(InvokeAnswer("error", GoErrorText(e))))
    }

    /** POST /api/phone-auth/process, with the success log made safe: after
        the method, client and body checks, an empty use case or credential
        is a 400, the use case selects the SDK call, any other value is a 400
        naming it, and an SDK error goes through `handleGlideError`. */
    function ProcessHandler(httpMethod: string, body: Option<ProcessBody>,
                            getPhoneNumber: (JsonValue, string) -> GoResult<PhoneNumberResponse>,
                            verifyPhoneNumber: (JsonValue, string) -> GoResult<JsonValue>): (r: Reply<ProcessResult>)
      ensures httpMethod != "POST" ==> r == GoMethodNotAllowed()
      ensures httpMethod == "POST" && !hasClient ==> r == SendErrorResponse(ServiceUnavailable, NotInitializedCode, NotInitializedText, None)
      ensures httpMethod == "POST" && hasClient && body.None? ==>
                r == SendErrorResponse(BadRequest, "INVALID_REQUEST", "Invalid request body", None)
      ensures httpMethod == "POST" && hasClient && body.Some? && (body.value.useCase == "" || body.value.credential == "") ==>
                r == SendErrorResponse(BadRequest, "VALIDATION_ERROR", RequiredFieldsText, None)
      ensures httpMethod == "POST" && hasClient && body.Some? && body.value.useCase != "" && body.value.credential != ""
              && body.value.useCase != "GetPhoneNumber" && body.value.useCase != "VerifyPhoneNumber" ==>
                r == SendErrorResponse(BadRequest, "VALIDATION_ERROR", InvalidUseCaseText + body.value.useCase, None)
      ensures r.body.Entity? ==> httpMethod == "POST" && hasClient && body.Some? && body.value.credential != "" && r.status == OK
      ensures r.body.Entity? && r.body.entity.PhoneNumberResult? ==>
                body.value.useCase == "GetPhoneNumber"
                && getPhoneNumber(body.value.session, body.value.credential) == Ok(r.body.entity.phoneNumber)
      ensures r.body.Entity? && r.body.entity.VerifyResult? ==>
                body.value.useCase == "VerifyPhoneNumber"
                && verifyPhoneNumber(body.value.session, body.value.credential) == Ok(r.body.entity.verification)
      ensures httpMethod == "POST" && hasClient && body.Some? && body.value.credential != "" && body.value.useCase == "GetPhoneNumber" ==>
                match getPhoneNumber(body.value.session, body.value.credential)
                case Ok(response) => r == Reply(OK, Entity(PhoneNumberResult(response)))
                case Err(e) => r == HandleGlideError(e)
      ensures httpMethod == "POST" && hasClient && body.Some? && body.value.credential != "" && body.value.useCase == "VerifyPhoneNumber" ==>
                match verifyPhoneNumber(body.value.session, body.value.credential)
                case Ok(response) => r == Reply(OK, Entity(VerifyResult(response)))
                case Err(e) => r == HandleGlideError(e)
    {
      if httpMethod != "POST" then GoMethodNotAllowed()
      else if !hasClient then SendErrorResponse(ServiceUnavailable, NotInitializedCode, NotInitializedText, None)
      else if body.None? then SendErrorResponse(BadRequest, "INVALID_REQUEST", "Invalid request body", None)
      else
        var req := body.value;
        if req.useCase == "" || req.credential == "" then
          SendErrorResponse(BadRequest, "VALIDATION_ERROR", RequiredFieldsText, None)
        else if req.useCase == "GetPhoneNumber" then
          match getPhoneNumber(req.session, req.credential)
          case Ok(response) => Reply(OK, Entity(PhoneNumberResult(response)))
          case Err(e) => HandleGlideError(e)
        else if req.useCase == "VerifyPhoneNumber" then
          match verifyPhoneNumber(req.session, req.credential)
          case Ok(response) => Reply(OK, Entity(VerifyResult(response)))
          case Err(e) => HandleGlideError(e)
        else
          SendErrorResponse(BadRequest, "VALIDATION_ERROR", InvalidUseCaseText + req.useCase, None)
    }

    /** The process handler as written: the success log of a retrieved
        number slices its first six bytes, which panics on a number whose
        UTF-8 encoding is shorter, before anything is written, so the client
        gets no answer. */
    function ProcessHandlerAsWritten(httpMethod: string, body: Option<ProcessBody>,
                                     getPhoneNumber: (JsonValue, string) -> GoResult<PhoneNumberResponse>,
                                     verifyPhoneNumber: (JsonValue, string) -> GoResult<JsonValue>): (r: Reply<ProcessResult>)
      ensures var shortNumber :=
                httpMethod == "POST" && hasClient && body.Some? && body.value.useCase == "GetPhoneNumber" && body.value.credential != ""
                && getPhoneNumber(body.value.session, body.value.credential).Ok?
                && ByteLength(getPhoneNumber(body.value.session, body.value.credential).value.phoneNumber) < 6;
              (shortNumber ==> r == Panicked())
              && (!shortNumber ==> r == ProcessHandler(httpMethod, body, getPhoneNumber, verifyPhoneNumber))
    {
      var reply := ProcessHandler(httpMethod, body, getPhoneNumber, verifyPhoneNumber);
      if reply.body.Entity? && reply.body.entity.PhoneNumberResult? && ByteLength(reply.body.entity.phoneNumber.phoneNumber) < 6
      then Panicked()
      else reply
    }

    /** GET /api/phone-auth/status/{id}. An empty ID is a 400; a missing or
        expired entry is a 404 (the read does not evict it); otherwise the
        stored URL is polled (`polled`) and the upstream answer mapped. The
        store is not changed. */
    method StatusHandler(httpMethod: string, path: string, upstream: string -> GoUpstream, now: int)
      returns (reply: Reply<JsonValue>, polled: Option<string>)
      requires forall url :: upstream(url).Answered? ==> 0 <= upstream(url).status <= 999
      ensures httpMethod != "GET" ==> reply == GoMethodNotAllowed() && polled.None?
      ensures httpMethod == "GET" && SessionIdFromPath(path) == "" ==>
                reply == SendErrorResponse(BadRequest, "INVALID_REQUEST", "Session ID is required", None) && polled.None?
      ensures httpMethod == "GET" && SessionIdFromPath(path) != "" ==>
                polled == Lookup(sessionStore.sessionStore, SessionIdFromPath(path), now)
      ensures httpMethod == "GET" && SessionIdFromPath(path) != "" && polled.None? ==>
                reply == SendErrorResponse(NotFound, "SESSION_NOT_FOUND",
                                           SessionNotFoundText, None)
      ensures polled.Some? ==> reply == StatusReply(ForwardUpstream(upstream(polled.value)))
    {
      polled := None;
      if httpMethod != "GET" {
        reply := GoMethodNotAllowed();
        return;
      }
      var sessionId := SessionIdFromPath(path);
      if sessionId == "" {
        reply := SendErrorResponse(BadRequest, "INVALID_REQUEST", "Session ID is required", None);
        return;
      }
      var statusUrl, found := sessionStore.GetStoredStatusUrl(sessionId, now);
      if !found {
        reply := SendErrorResponse(NotFound, "SESSION_NOT_FOUND",
                                   SessionNotFoundText, None);
        return;
      }
      polled := Some(statusUrl);
      reply := StatusReply(ForwardUpstream(upstream(statusUrl)));
    }
  }

  /** `err.Error()`. */
  function GoErrorText(e: GoError): string
  {
    match e
    case SdkError(_, _, _, _, errorText, _) => errorText
    case OtherError(text) => text
  }

  /** The reply a status handler writes for its outcome. */
  function StatusReply(outcome: StatusOutcome): (r: Reply<JsonValue>)
    requires outcome.Forward? ==> 100 <= outcome.status <= 999
    ensures outcome.Fail? ==> r == SendErrorResponse(outcome.status, outcome.code, outcome.message, None)
    ensures outcome.Forward? ==> r == Reply(outcome.status, JsonBody(outcome.data))
  {
    match outcome
    case Fail(status, code, message) => SendErrorResponse(status, code, message, None)
    case Forward(status, data) => Reply(status, JsonBody(data))
  }

  /** A retrieval whose SDK answer carries an empty phone number drops the
      connection as written, where the corrected handler answers 200. */
  lemma {:induction false} ShortPhoneNumberPanics(server: Server, session: JsonValue,
                                                  getPhoneNumber: (JsonValue, string) -> GoResult<PhoneNumberResponse>,
                                                  verifyPhoneNumber: (JsonValue, string) -> GoResult<JsonValue>)
    requires server.hasClient
    requires getPhoneNumber(session, "credential") == Ok(PhoneNumberResponse("", JNull))
    ensures server.ProcessHandlerAsWritten("POST", Some(ProcessBody("GetPhoneNumber", session, "credential")),
                                           getPhoneNumber, verifyPhoneNumber) == Panicked()
    ensures server.ProcessHandler("POST", Some(ProcessBody("GetPhoneNumber", session, "credential")),
                                  getPhoneNumber, verifyPhoneNumber).status == OK
  {
    assert "credential" != "" by { assert |"credential"| == 10; }
  }
}
