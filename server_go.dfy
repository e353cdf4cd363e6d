/** The handlers of the root Go server (server.go): prepare with a response
    shape check, process on the loosely decoded body, the status proxy on a
    fixed public URL, and error replies that mark development mode. The SDK
    client always exists here. `nodeEnv` is the `NODE_ENV` variable. */
module ServerGo {
  import opened Common
  import opened Http
  import opened Text
  import opened GoShared

  /** Whether `strings.ToLower(NODE_ENV)` is "development". */
  predicate IsDevelopment(nodeEnv: string)
  {
    Lower(nodeEnv) == "development"
  }

  /** `sendErrorResponse`: like the other Go server's, except that in
      development a reply without details gets `{"env": "development"}`. */
  function SendErrorResponse<T>(status: int, code: string, message: string,
                                details: Option<map<string, JsonValue>>, nodeEnv: string): (r: Reply<T>)
    ensures !(100 <= status <= 999) ==> r == Panicked()
    ensures 100 <= status <= 999 ==> r.status == status && r.body.GoErrorBody?
    ensures 100 <= status <= 999 ==>
              var e := r.body.response;
              e.error == code && e.message == message && e.requestId == RequestIdOf(details)
              && e.details == if IsDevelopment(nodeEnv) && details.None? then Some(map["env" := JString("development")]) else details
  {
    var shown := if IsDevelopment(nodeEnv) && details.None? then Some(map["env" := JString("development")]) else details;
    WriteStatus(status, GoErrorBody(ErrorResponse(code, message, RequestIdOf(details), shown)))
  }

  /** The development marker never hides SDK details: an error that carries
      details is sent with exactly those, in every environment. */
  lemma {:induction false} DevelopmentMarkerOnlyFillsEmptyDetails<T>(status: int, code: string, message: string,
                                                                    details: map<string, JsonValue>, nodeEnv: string)
    requires 100 <= status <= 999
    ensures SendErrorResponse<T>(status, code, message, Some(details), nodeEnv).body.response.details == Some(details)
  {
  }

  /** `handleGlideError`, with this server's `sendErrorResponse`: an SDK
      error keeps its code and message under its own status (500 for 0),
      with the SDK-error details in every environment; any other error is a
      500 UNEXPECTED_ERROR whose details mark development only there. */
  function HandleGlideError<T>(err: GoError, nodeEnv: string): (r: Reply<T>)
    ensures err.OtherError? ==>
              r == Reply(InternalServerError, GoErrorBody(ErrorResponse("UNEXPECTED_ERROR", err.text, "",
                           if IsDevelopment(nodeEnv) then Some(map["env" := JString("development")]) else None)))
    ensures err.SdkError? && (err.status == 0 || 100 <= err.status <= 999) ==>
              r.status == (if err.status == 0 then InternalServerError else err.status)
              && r.body.GoErrorBody? && r.body.response.error == err.code && r.body.response.message == err.message
              && r.body.response.details == GlideErrorCall(err).details
              && r.body.response.requestId == RequestIdOf(GlideErrorCall(err).details)
    ensures err.SdkError? && err.status != 0 && !(100 <= err.status <= 999) ==> r == Panicked()
  {
    var c := GlideErrorCall(err);
    SendErrorResponse(c.status, c.code, c.message, c.details, nodeEnv)
  }

  /** The shape the handler demands before forwarding an SDK answer. */
  predicate WellFormedPrepareResponse(response: GoPrepareResponse)
  {
    response.authenticationStrategy != "" && response.data.Some? && response.sessionKey != ""
  }

  /** POST /api/phone-auth/prepare. `body` is the decoded request (`None`
      when it does not decode); the SDK gets it with the default PLMN
      applied, and its answer is forwarded only when well formed. */
  function PrepareHandler(httpMethod: string, body: Option<GoPrepareRequest>,
                          sdkPrepare: GoPrepareRequest -> GoResult<GoPrepareResponse>, nodeEnv: string): (r: Reply<GoPrepareResponse>)
    ensures httpMethod != "POST" ==> r == GoMethodNotAllowed()
    ensures httpMethod == "POST" && body.None? ==> r == SendErrorResponse(BadRequest, "INVALID_REQUEST", "Invalid request body", None, nodeEnv)
    ensures r.body.Entity? <==> httpMethod == "POST" && body.Some? && sdkPrepare(WithDefaultPlmn(body.value)).Ok?
                                && WellFormedPrepareResponse(sdkPrepare(WithDefaultPlmn(body.value)).value)
    ensures r.body.Entity? ==> r == Reply(OK, Entity(sdkPrepare(WithDefaultPlmn(body.value)).value))
    ensures httpMethod == "POST" && body.Some? && sdkPrepare(WithDefaultPlmn(body.value)).Err? ==>
              r == HandleGlideError(sdkPrepare(WithDefaultPlmn(body.value)).error, nodeEnv)
    ensures httpMethod == "POST" && body.Some? && sdkPrepare(WithDefaultPlmn(body.value)).Ok?
            && !WellFormedPrepareResponse(sdkPrepare(WithDefaultPlmn(body.value)).value) ==>
              r == SendErrorResponse(InternalServerError, "UNEXPECTED_RESPONSE", "Unexpected response format from Glide SDK", None, nodeEnv)
  {
    if httpMethod != "POST" then GoMethodNotAllowed()
    else if body.None? then SendErrorResponse(BadRequest, "INVALID_REQUEST", "Invalid request body", None, nodeEnv)
    else match sdkPrepare(WithDefaultPlmn(body.value))
         case Err(e) => HandleGlideError(e, nodeEnv)
         case Ok(response) =>
           if WellFormedPrepareResponse(response) then Reply(OK, Entity(response))
           else SendErrorResponse(InternalServerError, "UNEXPECTED_RESPONSE", "Unexpected response format from Glide SDK", None, nodeEnv)
  }

  /** The members of a body decoded into `map[string]interface{}`: an
      object's members, none for a JSON null (a nil map), and `None` for any
      other value, which does not decode into a map. */
  function BodyMembers(body: JsonValue): (r: Option<seq<(string, JsonValue)>>)
    ensures body.JObject? ==> r == Some(body.members)
    ensures body.JNull? ==> r == Some([])
    ensures r.None? <==> !body.JObject? && !body.JNull?
  {
    match body
    case JObject(members) => Some(members)
    case JNull => Some([])
    case _ => None
  }

  /** A field as an `interface{}` value: nil when absent or null. */
  function Field(members: seq<(string, JsonValue)>, key: string): (r: Option<JsonValue>)
    ensures r.Some? ==> Member(members, key) == r && r.value != JNull
    ensures r.None? ==> Member(members, key).None? || Member(members, key) == Some(JNull)
  {
    match Member(members, key)
    case Some(JNull) => None
    case other => other
  }

  /** `reqBody["use_case"].(string)`: the string, or "" for anything else. */
  function UseCaseField(members: seq<(string, JsonValue)>): (r: string)
    ensures r != "" ==> Member(members, "use_case") == Some(JString(r))
    ensures Member(members, "use_case").Some? && Member(members, "use_case").value.JString? ==>
              r == Member(members, "use_case").value.s
  {
    match Member(members, "use_case")
    case Some(JString(s)) => s
    case _ => ""
  }

  /** The credential as logged: its first 100 characters and a truncation
      mark when longer, empty when it is not a string. */
  function CredentialPreview(credential: Option<JsonValue>): (r: string)
    ensures credential.Some? && credential.value.JString? ==> r == Preview(credential.value.s, 100, "...[TRUNCATED]")
    ensures !(credential.Some? && credential.value.JString?) ==> r == ""
  {
    if credential.Some? && credential.value.JString? then Preview(credential.value.s, 100, "...[TRUNCATED]") else ""
  }

  /** The log never shows more than 100 characters of a credential. */
  lemma {:induction false} CredentialPreviewIsBounded(credential: Option<JsonValue>)
    ensures |CredentialPreview(credential)| <= 100 + |"...[TRUNCATED]"|
  {
  }

  const RequiredFieldsText := "use_case, session, and credential are required"
  const InvalidUseCaseText := "Invalid use_case. Must be 'GetPhoneNumber' or 'VerifyPhoneNumber', got: "

  /** POST /api/phone-auth/process on the generic map. `body` is the decoded
      JSON (`None` when it is not JSON). A string use case and non-null
      session and credential are required; session and credential are
      passed to the SDK as they came. */
  function ProcessHandler(httpMethod: string, body: Option<JsonValue>,
                          getPhoneNumber: (JsonValue, JsonValue) -> GoResult<JsonValue>,
                          verifyPhoneNumber: (JsonValue, JsonValue) -> GoResult<JsonValue>, nodeEnv: string): (r: Reply<JsonValue>)
    ensures httpMethod != "POST" ==> r == GoMethodNotAllowed()
    ensures httpMethod == "POST" && (body.None? || BodyMembers(body.value).None?) ==>
              r == SendErrorResponse(BadRequest, "INVALID_REQUEST", "Invalid request body", None, nodeEnv)
    ensures httpMethod == "POST" && body.Some? && BodyMembers(body.value).Some? ==>
              var m := BodyMembers(body.value).value;
              var useCase := UseCaseField(m);
              var session := Field(m, "session");
              var credential := Field(m, "credential");
              (useCase == "" || session.None? || credential.None? ==>
                 r == SendErrorResponse(BadRequest, "VALIDATION_ERROR", RequiredFieldsText, None, nodeEnv))
              && (useCase != "" && session.Some? && credential.Some? && useCase != "GetPhoneNumber" && useCase != "VerifyPhoneNumber" ==>
                 r == SendErrorResponse(BadRequest, "VALIDATION_ERROR", InvalidUseCaseText + useCase, None, nodeEnv))
              && (useCase == "GetPhoneNumber" && session.Some? && credential.Some? ==>
                 r == ForwardAnswer(getPhoneNumber(session.value, credential.value), nodeEnv))
              && (useCase == "VerifyPhoneNumber" && session.Some? && credential.Some? ==>
                 r == ForwardAnswer(verifyPhoneNumber(session.value, credential.value), nodeEnv))
  {
    if httpMethod != "POST" then GoMethodNotAllowed()
    else if body.None? || BodyMembers(body.value).None? then
      SendErrorResponse(BadRequest, "INVALID_REQUEST", "Invalid request body", None, nodeEnv)
    else
      var m := BodyMembers(body.value).value;
      var useCase := UseCaseField(m);
      var session := Field(m, "session");
      var credential := Field(m, "credential");
      if useCase == "" || session.None? || credential.None? then
        SendErrorResponse(BadRequest, "VALIDATION_ERROR", RequiredFieldsText, None, nodeEnv)
      else if useCase == "GetPhoneNumber" then ForwardAnswer(getPhoneNumber(session.value, credential.value), nodeEnv)
      else if useCase == "VerifyPhoneNumber" then ForwardAnswer(verifyPhoneNumber(session.value, credential.value), nodeEnv)
      else SendErrorResponse(BadRequest, "VALIDATION_ERROR", InvalidUseCaseText + useCase, None, nodeEnv)
  }

  /** An SDK answer written as it is, or its error. */
  function ForwardAnswer(answer: GoResult<JsonValue>, nodeEnv: string): (r: Reply<JsonValue>)
    ensures answer.Ok? ==> r == Reply(OK, Entity(answer.value))
    ensures answer.Err? ==> r == HandleGlideError(answer.error, nodeEnv)
  {
    match answer
    case Ok(result) => Reply(OK, Entity(result))
    case Err(e) => HandleGlideError(e, nodeEnv)
  }

  /** A process body that is an explicit JSON null is treated as an empty
      map: it fails validation rather than decoding. */
  lemma {:induction false} NullBodyFailsValidation(getPhoneNumber: (JsonValue, JsonValue) -> GoResult<JsonValue>,
                                                   verifyPhoneNumber: (JsonValue, JsonValue) -> GoResult<JsonValue>, nodeEnv: string)
    ensures ProcessHandler("POST", Some(JNull), getPhoneNumber, verifyPhoneNumber, nodeEnv)
            == SendErrorResponse(BadRequest, "VALIDATION_ERROR", RequiredFieldsText, None, nodeEnv)
  {
    assert UseCaseField([]) == "";
  }

  /** The public status endpoint polled for every session. */
  const StatusUrlPrefix := "https://api.glideidentity.app/public/public/status/"

  /** `fmt.Sprintf` of the prefix and the session ID. */
  function StatusUrl(sessionId: string): (r: string)
    ensures |r| == |StatusUrlPrefix| + |sessionId|
    ensures r[..|StatusUrlPrefix|] == StatusUrlPrefix && r[|StatusUrlPrefix|..] == sessionId
  {
    StatusUrlPrefix + sessionId
  }

  /** GET /api/phone-auth/status/{id}: an empty ID is a 400; otherwise the
      public URL for the ID is polled (`upstream` is that exchange) and the
      outcome mapped as in the other Go server, without any session store. */
  function StatusHandler(httpMethod: string, path: string, upstream: string -> GoUpstream, nodeEnv: string): (r: Reply<JsonValue>)
    requires forall url :: upstream(url).Answered? ==> 0 <= upstream(url).status <= 999
    ensures httpMethod != "GET" ==> r == GoMethodNotAllowed()
    ensures httpMethod == "GET" && SessionIdFromPath(path) == "" ==>
              r == SendErrorResponse(BadRequest, "INVALID_REQUEST", "Session ID is required", None, nodeEnv)
    ensures httpMethod == "GET" && SessionIdFromPath(path) != "" ==>
              match ForwardUpstream(upstream(StatusUrl(SessionIdFromPath(path))))
              case Fail(status, code, message) => r == SendErrorResponse(status, code, message, None, nodeEnv)
              case Forward(status, data) => r == Reply(status, JsonBody(data))
  {
    if httpMethod != "GET" then GoMethodNotAllowed()
    else
      var sessionId := SessionIdFromPath(path);
      if sessionId == "" then SendErrorResponse(BadRequest, "INVALID_REQUEST", "Session ID is required", None, nodeEnv)
      else match ForwardUpstream(upstream(StatusUrl(sessionId)))
           case Fail(status, code, message) => SendErrorResponse(status, code, message, None, nodeEnv)
           case Forward(status, data) => Reply(status, JsonBody(data))
  }

  /** Every status request that reaches the network carries a non-blank ID
      after the fixed prefix: an upstream answer of any kind is only ever
      relayed for such a request. */
  lemma {:induction false} ForwardedStatusHasSessionId(httpMethod: string, path: string, upstream: string -> GoUpstream, nodeEnv: string)
    requires forall url :: upstream(url).Answered? ==> 0 <= upstream(url).status <= 999
    requires StatusHandler(httpMethod, path, upstream, nodeEnv).body.JsonBody?
    ensures httpMethod == "GET" && SessionIdFromPath(path) != ""
    ensures upstream(StatusUrl(SessionIdFromPath(path))).Answered?
  {
  }
}
