/** Logic the two Go servers share word for word: the default carrier for
    phone-number retrieval, the SDK-error parts `handleGlideError` sends, the
    request-ID lookup of `sendErrorResponse`, the status code check of
    `WriteHeader`, and the status proxy's path parsing and upstream mapping. */
module GoShared {
  import opened Common
  import opened Http
  import opened Text

  /** A mobile network: country code and network code. */
  datatype GoPlmn = GoPlmn(mcc: string, mnc: string)

  /** The SDK's prepare request after decoding; an absent string is "" and
      an absent PLMN is nil. The consent and client fields are passed on
      untouched. */
  datatype GoPrepareRequest = GoPrepareRequest(useCase: string, phoneNumber: string, plmn: Option<GoPlmn>,
                                               consentData: JsonValue, clientInfo: JsonValue)

  /** The SDK's prepare answer as far as the handlers look at it; `data` is
      nil when absent. */
  datatype GoPrepareResponse = GoPrepareResponse(authenticationStrategy: string, sessionKey: string,
                                                 data: Option<JsonValue>)

  /** The SDK's `UseCaseGetPhoneNumber` constant. */
  const GetPhoneNumberUseCase := "GetPhoneNumber"

  /** T-Mobile USA. */
  const DefaultPlmn := GoPlmn("310", "260")

  /** A retrieval request that names neither a phone number nor a complete
      PLMN. */
  predicate NeedsDefaultPlmn(req: GoPrepareRequest)
  {
    req.useCase == GetPhoneNumberUseCase && req.phoneNumber == ""
    && (req.plmn.None? || req.plmn.value.mcc == "" || req.plmn.value.mnc == "")
  }

  /** The default-PLMN rewrite of the prepare handlers. */
  function WithDefaultPlmn(req: GoPrepareRequest): (r: GoPrepareRequest)
    ensures NeedsDefaultPlmn(req) ==> r == req.(plmn := Some(DefaultPlmn))
    ensures !NeedsDefaultPlmn(req) ==> r == req
    ensures r.useCase == req.useCase && r.phoneNumber == req.phoneNumber
            && r.consentData == req.consentData && r.clientInfo == req.clientInfo
  {
    if NeedsDefaultPlmn(req) then req.(plmn := Some(DefaultPlmn)) else req
  }

  /** After the rewrite, a retrieval request without a phone number always
      names a complete network, and applying the rewrite again changes
      nothing. */
  lemma {:induction false} DefaultPlmnCompletesRetrieval(req: GoPrepareRequest)
    ensures var r := WithDefaultPlmn(req);
            r.useCase == GetPhoneNumberUseCase && r.phoneNumber == "" ==>
              r.plmn.Some? && r.plmn.value.mcc != "" && r.plmn.value.mnc != ""
    ensures WithDefaultPlmn(WithDefaultPlmn(req)) == WithDefaultPlmn(req)
  {
    assert DefaultPlmn.mcc == "310" && DefaultPlmn.mnc == "260";
  }

  /** A PLMN the client sent in full is never overridden. */
  lemma {:induction false} CompletePlmnIsKept(req: GoPrepareRequest)
    requires req.plmn.Some? && req.plmn.value.mcc != "" && req.plmn.value.mnc != ""
    ensures WithDefaultPlmn(req).plmn == req.plmn
  {
  }

  /** The arguments `handleGlideError` passes to `sendErrorResponse`. */
  datatype ErrorCall = ErrorCall(status: int, code: string, message: string, details: Option<map<string, JsonValue>>)

  /** An SDK error keeps its code and message; its status becomes the reply
      status, 500 standing in for 0; the details are the SDK's (or a new
      map), with the request ID added when non-empty and the original status
      always added. Any other error is a 500 UNEXPECTED_ERROR carrying the
      error's text and no details. */
  function GlideErrorCall(err: GoError): (r: ErrorCall)
    ensures err.SdkError? ==> r.code == err.code && r.message == err.message
    ensures err.SdkError? ==> r.status == if err.status == 0 then InternalServerError else err.status
    ensures err.SdkError? ==> r.details.Some? && "status" in r.details.value && r.details.value["status"] == JInt(err.status)
    ensures err.SdkError? && err.requestId != "" ==> "requestId" in r.details.value && r.details.value["requestId"] == JString(err.requestId)
    ensures err.SdkError? ==> forall k :: k != "status" && k != "requestId" ==>
              (k in r.details.value <==> err.details.Some? && k in err.details.value)
    ensures err.SdkError? ==> forall k :: k != "status" && k != "requestId" && k in r.details.value ==>
              r.details.value[k] == err.details.value[k]
    ensures err.SdkError? && err.requestId == "" ==>
              ("requestId" in r.details.value <==> err.details.Some? && "requestId" in err.details.value)
    ensures err.SdkError? && err.requestId == "" && "requestId" in r.details.value ==>
              r.details.value["requestId"] == err.details.value["requestId"]
    ensures err.OtherError? ==> r == ErrorCall(InternalServerError, "UNEXPECTED_ERROR", err.text, None)
  {
    match err
    case SdkError(code, message, status, requestId, _, details) =>
      var base := if details.Some? then details.value else map[];
      var withId := if requestId != "" then base["requestId" := JString(requestId)] else base;
      ErrorCall(if status == 0 then InternalServerError else status, code, message, Some(withId["status" := JInt(status)]))
    case OtherError(text) => ErrorCall(InternalServerError, "UNEXPECTED_ERROR", text, None)
  }

  /** The request ID `sendErrorResponse` copies from the details: a string
      "request_id" wins over a string "requestId"; otherwise it stays empty. */
  function RequestIdOf(details: Option<map<string, JsonValue>>): (r: string)
    ensures details.Some? && "request_id" in details.value && details.value["request_id"].JString? ==>
              r == details.value["request_id"].s
    ensures details.Some? && !("request_id" in details.value && details.value["request_id"].JString?)
            && "requestId" in details.value && details.value["requestId"].JString? ==>
              r == details.value["requestId"].s
    ensures r != "" ==> details.Some? && (("request_id" in details.value && details.value["request_id"] == JString(r))
                                          || ("requestId" in details.value && details.value["requestId"] == JString(r)))
  {
    if details.None? then ""
    else if "request_id" in details.value && details.value["request_id"].JString? then details.value["request_id"].s
    else if "requestId" in details.value && details.value["requestId"].JString? then details.value["requestId"].s
    else ""
  }

  /** An SDK error's request ID reaches the reply's `requestId` field,
      unless the SDK's own details carry a string "request_id", which wins. */
  lemma {:induction false} SdkRequestIdReachesReply(err: GoError)
    requires err.SdkError? && err.requestId != ""
    requires err.details.Some? ==> !("request_id" in err.details.value && err.details.value["request_id"].JString?)
    ensures RequestIdOf(GlideErrorCall(err).details) == err.requestId
  {
    var d := GlideErrorCall(err).details.value;
    assert "request_id" in d ==> d["request_id"] == err.details.value["request_id"];
  }

  /** `WriteHeader`: a code outside 100..999 makes `net/http` panic, which
      drops the connection; a valid one is sent with the body. */
  function WriteStatus<T>(status: int, body: Body<T>): (r: Reply<T>)
    ensures 100 <= status <= 999 ==> r == Reply(status, body)
    ensures !(100 <= status <= 999) ==> r == Panicked()
  {
    if 100 <= status <= 999 then Reply(status, body) else Panicked()
  }

  const StatusPathPrefix := "/api/phone-auth/status/"

  /** The session ID of a status request: the path after the route prefix,
      trimmed of white space. */
  function SessionIdFromPath(path: string): (r: string)
    ensures StatusPathPrefix <= path ==> r == TrimSpace(path[|StatusPathPrefix|..])
  {
    TrimSpace(TrimPrefix(path, StatusPathPrefix))
  }

  /** What the status proxy's HTTP exchange produced: the request could not
      be built, the transport failed, or an answer came with a status of at most three digits
      status and a body that did or did not decode as JSON. */
  datatype GoUpstream = BadUrl | TransportError | Answered(status: int, decoded: Option<JsonValue>)

  /** How a status handler ends once it has a URL: an error reply via
      `sendErrorResponse`, or the decoded body forwarded with a status. */
  datatype StatusOutcome = Fail(status: int, code: string, message: string) | Forward(status: int, data: JsonValue)

  /** The decode is checked before the status, so an upstream error whose
      body is not JSON becomes DECODE_ERROR; a decoded error body is relayed
      with its status, and every status below 400 becomes 200. */
  function ForwardUpstream(upstream: GoUpstream): (r: StatusOutcome)
    ensures upstream.BadUrl? ==> r == Fail(InternalServerError, "REQUEST_ERROR", "Failed to create status request")
    ensures upstream.TransportError? ==> r == Fail(InternalServerError, "STATUS_CHECK_FAILED", "Failed to check status")
    ensures upstream.Answered? && upstream.decoded.None? ==>
              r == Fail(InternalServerError, "DECODE_ERROR", "Failed to decode status response")
    ensures r.Forward? <==> upstream.Answered? && upstream.decoded.Some?
    ensures r.Forward? ==> r.data == upstream.decoded.value
                           && r.status == if upstream.status >= 400 then upstream.status else OK
  {
    match upstream
    case BadUrl => Fail(InternalServerError, "REQUEST_ERROR", "Failed to create status request")
    case TransportError => Fail(InternalServerError, "STATUS_CHECK_FAILED", "Failed to check status")
    case Answered(status, decoded) =>
      if decoded.None? then Fail(InternalServerError, "DECODE_ERROR", "Failed to decode status response")
      else Forward(if status >= 400 then status else OK, decoded.value)
  }
}
