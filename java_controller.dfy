/** `PhoneAuthController` of the Java server: the REST handlers for prepare,
    process, invoke, complete and the status proxy, with the status-URL store
    and the device-binding cookie. Calls into the SDK, the HTTP client and the
    cookie helpers are function parameters; the clock is the `now` argument. */
module JavaController {
  import opened Common
  import opened Http
  import opened Registry
  import opened Text
  import opened ProcessRequest
  import opened GlideRequests
  import opened JavaErrors
  import opened JavaSessionStore
  import opened ServerGlideService

  datatype SessionInfo = SessionInfo(sessionKey: Option<string>)

  /** The SDK's prepare answer; `data` stands for the strategy-specific
      fields the controller passes on untouched. */
  datatype PrepareResponse = PrepareResponse(authenticationStrategy: Option<string>, session: Option<SessionInfo>,
                                             feCode: Option<string>, data: JsonValue)

  /** The `Set-Cookie` the prepare handler adds: HttpOnly, SameSite=Lax,
      path "/", Max-Age of the SDK's binding constant; the name is derived
      from the session key by the SDK. */
  datatype BindingCookie = BindingCookie(sessionKey: Option<string>, value: string, secure: bool)

  /** The three values `complete` forwards to the aggregator. */
  datatype CompleteCall = CompleteCall(sessionKey: string, feCode: string, aggCode: string)

  /** The effects of the prepare handler once the service has answered: the
      entry it stores, the cookie it sets, and the reply. */
  datatype PrepareEffect = PrepareEffect(stored: Option<(string, string)>, cookie: Option<BindingCookie>,
                                         reply: Reply<PrepareResponse>)

  /** The request is secure when the scheme or the proxy's
      X-Forwarded-Proto says "https". */
  predicate IsSecure(scheme: string, forwardedProto: Option<string>)
    ensures scheme == "https" ==> IsSecure(scheme, forwardedProto)
    ensures forwardedProto == Some("https") ==> IsSecure(scheme, forwardedProto)
    ensures IsSecure(scheme, forwardedProto) ==> scheme == "https" || forwardedProto == Some("https")
  {
    scheme == "https" || forwardedProto == Some("https")
  }

  /** The prepare handler after the service call. A status URL is stored
      under the session key when both exist (a null key makes the store's
      map throw NullPointerException, handled as an unexpected error); the
      binding cookie carries the lower-cased fe_code when there is one and a
      session, and then the fe_code is removed from the body. */
  function PrepareDecision(outcome: Outcome<PrepareResponse>, statusUrl: Option<string>,
                           secure: bool, environment: string): (r: PrepareEffect)
    ensures outcome.Threw? ==> r == PrepareEffect(None, None, ServiceErrorReply(outcome.thrown, environment))
    ensures r.stored.Some? <==> outcome.Returned? && statusUrl.Some? && outcome.value.session.Some?
                                && outcome.value.session.value.sessionKey.Some?
    ensures r.stored.Some? ==> r.stored.value == (outcome.value.session.value.sessionKey.value, statusUrl.value)
    ensures outcome.Returned? && statusUrl.Some? && outcome.value.session.Some? && outcome.value.session.value.sessionKey.None? ==>
              r == PrepareEffect(None, None, ServiceErrorReply(OtherException(None), environment))
    ensures r.cookie.Some? ==> outcome.Returned? && outcome.value.feCode.Some? && outcome.value.session.Some?
    ensures r.cookie.Some? ==>
              r.cookie.value == BindingCookie(outcome.value.session.value.sessionKey, Lower(outcome.value.feCode.value), secure)
              && r.reply == Reply(OK, Entity(outcome.value.(feCode := None)))
    ensures r.reply.body.Entity? ==> outcome.Returned? && r.reply.status == OK
    ensures r.reply.body.Entity? && r.cookie.None? ==>
              r.reply == Reply(OK, Entity(outcome.value)) && (outcome.value.feCode.None? || outcome.value.session.None?)
  {
    match outcome
    case Threw(e) => PrepareEffect(None, None, ServiceErrorReply(e, environment))
    case Returned(response) =>
      if statusUrl.Some? && response.session.Some? && response.session.value.sessionKey.None? then
        PrepareEffect(None, None, ServiceErrorReply(OtherException(None), environment))
      else
        var stored := if statusUrl.Some? && response.session.Some?
                      then Some((response.session.value.sessionKey.value, statusUrl.value)) else None;
        if response.feCode.Some? && response.session.Some? then
          PrepareEffect(stored, Some(BindingCookie(response.session.value.sessionKey, Lower(response.feCode.value), secure)),
                        Reply(OK, Entity(response.(feCode := None))))
        else
          PrepareEffect(stored, None, Reply(OK, Entity(response)))
  }

  /** The binding cookie is marked Secure exactly when the request came in
      over HTTPS, directly or through a proxy that says so. */
  lemma {:induction false} BindingCookieSecureIffHttps(outcome: Outcome<PrepareResponse>, statusUrl: Option<string>,
                                                       scheme: string, forwardedProto: Option<string>, environment: string)
    requires PrepareDecision(outcome, statusUrl, IsSecure(scheme, forwardedProto), environment).cookie.Some?
    ensures PrepareDecision(outcome, statusUrl, IsSecure(scheme, forwardedProto), environment).cookie.value.secure
            <==> scheme == "https" || forwardedProto == Some("https")
  {
  }

  /** The binding code is never sent in a successful prepare body: it travels
      only in the HttpOnly cookie. */
  lemma {:induction false} FeCodeNeverInPrepareBody(outcome: Outcome<PrepareResponse>, statusUrl: Option<string>,
                                                    secure: bool, environment: string)
    requires outcome.Returned? && outcome.value.session.Some?
    ensures var r := PrepareDecision(outcome, statusUrl, secure, environment);
            r.reply.body.Entity? ==> r.reply.body.entity.feCode.None?
  {
  }

  /** The fe_code the process handler reads: the binding cookie parsed for the
      request's session key, looked up only when both the Cookie header and
      the key are present. */
  function ProcessFeCode(sessionKey: Option<string>, cookieHeader: Option<string>,
                         parseBindingCookie: (string, string) -> Option<string>): (r: Option<string>)
    ensures r.Some? ==> sessionKey.Some? && cookieHeader.Some?
                        && r == parseBindingCookie(cookieHeader.value, sessionKey.value)
    ensures sessionKey.Some? && cookieHeader.Some? ==> r == parseBindingCookie(cookieHeader.value, sessionKey.value)
  {
    if cookieHeader.Some? && sessionKey.Some? then parseBindingCookie(cookieHeader.value, sessionKey.value) else None
  }

  /** The 200 reply of the invoke handler when the body has no session ID. */
  function MissingSessionIdReply<T>(): Reply<T>
  {
    Reply(OK, JsonBody(JObject([("success", JBool(false)), ("reason", JString("missing_session_id"))])))
  }

  /** The invoke handler as written: a null or empty session ID is answered
      at once; otherwise the report outcome is returned, and a failure is
      answered with `Map.of("success", false, "error", e.getMessage())`,
      which throws itself when the message is null. */
  function InvokeAsWritten(sessionId: Option<string>, report: Outcome<JsonValue>): (r: Reply<JsonValue>)
    ensures sessionId.None? || sessionId == Some("") ==> r == MissingSessionIdReply()
    ensures sessionId.Some? && sessionId != Some("") && report.Returned? ==> r == Reply(OK, Entity(report.value))
    ensures r.status != OK ==> sessionId.Some? && report.Threw? && report.thrown.message.None? && r == Escaped()
  {
    if sessionId.None? || sessionId.value == "" then MissingSessionIdReply()
    else match report
         case Returned(result) => Reply(OK, Entity(result))
         case Threw(e) =>
           JavaReply(OK, MapOf("success", Some(JBool(false)), "error", Str(e.message)))
  }

  /** A report that fails with a message-less exception turns the invoke
      handler's "never fail" answer into a container 500. */
  lemma {:induction false} InvokeAsWrittenFailsOnNullMessage()
    ensures InvokeAsWritten(Some("session-1"), Threw(OtherException(None))) == Escaped()
  {
    assert "session-1" != "" by { assert |"session-1"| == 9; }
  }

  /** The invoke handler as evidently intended: a failed report is answered
      200 with `success: false` and the message, or null when it has none. */
  function Invoke(sessionId: Option<string>, report: Outcome<JsonValue>): (r: Reply<JsonValue>)
    ensures sessionId.None? || sessionId == Some("") ==> r == MissingSessionIdReply()
    ensures sessionId.Some? && sessionId != Some("") && report.Returned? ==> r == Reply(OK, Entity(report.value))
    ensures sessionId.Some? && sessionId != Some("") && report.Threw? ==>
              r.body.JsonBody? && r.body.value.JObject? && Member(r.body.value.members, "success") == Some(JBool(false))
  {
    if sessionId.None? || sessionId.value == "" then MissingSessionIdReply()
    else match report
         case Returned(result) => Reply(OK, Entity(result))
         case Threw(e) =>
           var error := if e.message.Some? then JString(e.message.value) else JNull;
           Reply(OK, JsonBody(JObject([("success", JBool(false)), ("error", error)])))
  }

  /** The corrected handler keeps the promise: whatever the report does, the
      answer is 200, and it agrees with the written one wherever that one
      answers at all. */
  lemma {:induction false} InvokeNeverFails(sessionId: Option<string>, report: Outcome<JsonValue>)
    ensures Invoke(sessionId, report).status == OK
    ensures InvokeAsWritten(sessionId, report).status == OK ==> InvokeAsWritten(sessionId, report) == Invoke(sessionId, report)
  {
    if sessionId.Some? && sessionId.value != "" && report.Threw? {
      var e := report.thrown;
      if e.message.Some? {
      }
    }
  }

  /** The message texts of the fixed error bodies. */
  const SessionNotFoundText := "Session not found. It may have expired or prepare was not called."
  const MissingFieldsText := "session_key and agg_code are required"
  const MissingCookieText := "Device binding cookie is missing. The prepare and complete must happen in the same browser."

  /** The 400 body of `complete` when a body field is missing. */
  function MissingRequiredFieldBody(): JsonValue
  {
    JObject([("error", JString("MISSING_REQUIRED_FIELD")), ("message", JString(MissingFieldsText))])
  }

  /** The 403 body of `complete` when the binding cookie cannot be read. */
  function MissingBindingCookieBody(): JsonValue
  {
    JObject([("error", JString("MISSING_BINDING_COOKIE")),
             ("message", JString(MissingCookieText))])
  }

  /** The 500 body of `complete` for an exception that is not the SDK's. */
  function UnexpectedErrorBody(): JsonValue
  {
    JObject([("error", JString("INTERNAL_ERROR")), ("message", JString(UnexpectedErrorText))])
  }

  /** The reply of `complete` once the aggregator call has been made: 204 on
      success, the SDK error's status with its code and message (a null one
      makes `Map.of` throw), or a fixed 500. */
  function CompleteResult(outcome: Outcome<()>): (r: Reply<()>)
    ensures outcome.Returned? <==> r == Reply(NoContent, NoBody)
    ensures outcome.Threw? && outcome.thrown.MagicalAuthError? && outcome.thrown.code.Some? && outcome.thrown.message.Some? ==>
              r == StatusReply(outcome.thrown.status,
                               JsonBody(JObject([("error", JString(outcome.thrown.code.value)),
                                                 ("message", JString(outcome.thrown.message.value))])))
    ensures outcome.Threw? && outcome.thrown.MagicalAuthError? && (outcome.thrown.code.None? || outcome.thrown.message.None?) ==>
              r == Escaped()
    ensures outcome.Threw? && !outcome.thrown.MagicalAuthError? ==>
              r == Reply(InternalServerError, JsonBody(UnexpectedErrorBody()))
  {
    match outcome
    case Returned(_) => Reply(NoContent, NoBody)
    case Threw(e) =>
      if e.MagicalAuthError? then
        match MapOf("error", Str(e.code), "message", Str(e.message))
        case None => Escaped()
        case Some(body) => StatusReply(e.status, JsonBody(body))
      else
        Reply(InternalServerError, JsonBody(UnexpectedErrorBody()))
  }

  /** The 404 body of the status proxy for a session with no live entry. */
  function SessionNotFoundBody(): JsonValue
  {
    JObject([("error", JString("SESSION_NOT_FOUND")), ("message", JString(SessionNotFoundText))])
  }

  /** The 500 reply of a failed poll: `Map.of` of STATUS_CHECK_FAILED and
      the exception's message, which throws itself on a null message. */
  function StatusCheckFailed(message: Option<string>): (r: Reply<JsonValue>)
    ensures message.Some? ==>
              r == Reply(InternalServerError, JsonBody(JObject([("error", JString("STATUS_CHECK_FAILED")),
                                                                ("message", JString(message.value))])))
    ensures message.None? ==> r == Escaped()
  {
    JavaReply(InternalServerError, MapOf("error", Some(JString("STATUS_CHECK_FAILED")), "message", Str(message)))
  }

  /** The reply of a status poll given the stored URL: no URL is 404; an
      upstream error status is relayed with its raw body; a success body is
      parsed and answered 200; any failure on the way is 500
      STATUS_CHECK_FAILED with the exception's message (a null one makes
      `Map.of` throw). The HTTP client reports statuses of at most three digits. */
  function StatusRelay(statusUrl: Option<string>, fetch: string -> Upstream,
                       parseJson: string -> Outcome<JsonValue>): (r: Reply<JsonValue>)
    requires statusUrl.Some? && fetch(statusUrl.value).Answered? ==> 0 <= fetch(statusUrl.value).status <= 999
    ensures statusUrl.None? <==> r == Reply(NotFound, JsonBody(SessionNotFoundBody()))
    ensures statusUrl.Some? && fetch(statusUrl.value).Answered? && fetch(statusUrl.value).status >= 400 ==>
              r == Reply(fetch(statusUrl.value).status, RawBody(fetch(statusUrl.value).body))
    ensures r.status == OK <==> statusUrl.Some? && fetch(statusUrl.value).Answered? && fetch(statusUrl.value).status < 400
                                && parseJson(fetch(statusUrl.value).body).Returned?
    ensures r.status == OK ==> r == Reply(OK, JsonBody(parseJson(fetch(statusUrl.value).body).value))
    ensures statusUrl.Some? && fetch(statusUrl.value).Failed? ==> r == StatusCheckFailed(fetch(statusUrl.value).message)
    ensures statusUrl.Some? && fetch(statusUrl.value).Answered? && fetch(statusUrl.value).status < 400
            && parseJson(fetch(statusUrl.value).body).Threw? ==>
              r == StatusCheckFailed(parseJson(fetch(statusUrl.value).body).thrown.message)
  {
    match statusUrl
    case None => Reply(NotFound, JsonBody(SessionNotFoundBody()))
    case Some(url) =>
      match fetch(url)
      case Failed(message) => StatusCheckFailed(message)
      case Answered(status, body) =>
        if status >= 400 then Reply(status, RawBody(body))
        else match parseJson(body)
             case Returned(json) => Reply(OK, JsonBody(json))
             case Threw(e) => StatusCheckFailed(e.message)
  }

  class PhoneAuthController {
    const glideService: GlideService
    const sessionStore: SessionStoreService
    /** The `spring.profiles.active` system property. */
    const profile: Option<string>

    constructor(glideService: GlideService, sessionStore: SessionStoreService, profile: Option<string>)
      ensures this.glideService == glideService && this.sessionStore == sessionStore && this.profile == profile
    {
      this.glideService := glideService;
      this.sessionStore := sessionStore;
      this.profile := profile;
    }

    /** POST /api/phone-auth/prepare. The service builds the SDK request
        (`sdkPrepare` is the SDK's answer to it), the status URL is stored
        with a fresh TTL, and the binding cookie is set, as
        `PrepareDecision` says; nothing else in the store changes. */
    method Prepare(request: PrepareRequest, sdkPrepare: SdkPrepareRequest -> Outcome<PrepareResponse>,
                   statusUrlOf: PrepareResponse -> Option<string>,
                   scheme: string, forwardedProto: Option<string>, now: int)
      returns (reply: Reply<PrepareResponse>, cookie: Option<BindingCookie>)
      modifies sessionStore
      ensures var outcome := match glideService.Prepare(request)
                             case Threw(e) => Threw(e)
                             case Returned(built) => sdkPrepare(built);
              var effect := PrepareDecision(outcome, if outcome.Returned? then statusUrlOf(outcome.value) else None,
                                            IsSecure(scheme, forwardedProto), Environment(profile));
              reply == effect.reply && cookie == effect.cookie
              && sessionStore.store == if effect.stored.Some?
                                       then old(sessionStore.store)[effect.stored.value.0 := FreshEntry(effect.stored.value.1, now)]
                                       else old(sessionStore.store)
    {
      var outcome := match glideService.Prepare(request)
                     case Threw(e) => Threw(e)
                     case Returned(built) => sdkPrepare(built);
      cookie := None;
      if outcome.Threw? {
        reply := ServiceErrorReply(outcome.thrown, Environment(profile));
        return;
      }
      var response := outcome.value;
      var statusUrl := statusUrlOf(response);
      if statusUrl.Some? && response.session.Some? {
        if response.session.value.sessionKey.None? {
          reply := ServiceErrorReply(OtherException(None), Environment(profile));
          return;
        }
        sessionStore.StoreStatusUrl(response.session.value.sessionKey.value, statusUrl.value, now);
      }
      if response.feCode.Some? && response.session.Some? {
        var secure := IsSecure(scheme, forwardedProto);
        cookie := Some(BindingCookie(response.session.value.sessionKey, Lower(response.feCode.value), secure));
        response := response.(feCode := None);
      }
      reply := Reply(OK, Entity(response));
    }

    /** POST /api/phone-auth/process. `processCredential` stands for the
        service call with the fe_code read from the binding cookie; its
        result is answered 200, its exceptions through the shared mapping. */
    function Process(request: PhoneAuthProcessRequest, cookieHeader: Option<string>,
                     parseBindingCookie: (string, string) -> Option<string>,
                     processCredential: (PhoneAuthProcessRequest, Option<string>) -> Outcome<JsonValue>): (r: Reply<JsonValue>)
      ensures var outcome := processCredential(request, ProcessFeCode(GetSessionKey(request.session), cookieHeader, parseBindingCookie));
              (outcome.Returned? ==> r == Reply(OK, Entity(outcome.value)))
              && (outcome.Threw? ==> r == ServiceErrorReply(outcome.thrown, Environment(profile)))
    {
      var feCode := ProcessFeCode(GetSessionKey(request.session), cookieHeader, parseBindingCookie);
      match processCredential(request, feCode)
      case Returned(result) => Reply(OK, Entity(result))
      case Threw(e) => ServiceErrorReply(e, Environment(profile))
    }

    /** POST /api/phone-auth/invoke, corrected: the service passes the
        session ID to the SDK, whose answer is `sdkReport`; the reply is the
        corrected `Invoke`, and it is the handler as written wherever that
        one answers at all. */
    function InvokeReport(sessionId: Option<string>, sdkReport: Option<string> -> Outcome<JsonValue>): (r: Reply<JsonValue>)
      reads glideService
      ensures r.status == OK
      ensures sessionId.None? || sessionId == Some("") ==> r == MissingSessionIdReply()
      ensures glideService.initialized && sessionId.Some? && sessionId != Some("") ==> r == Invoke(sessionId, sdkReport(sessionId))
      ensures !glideService.initialized && sessionId.Some? && sessionId != Some("") ==>
                r == Reply(OK, JsonBody(JObject([("success", JBool(false)), ("error", JString(NotInitializedMessage))])))
      ensures var outcome := match glideService.ReportInvocation(sessionId)
                             case Threw(e) => Threw(e)
                             case Returned(s) => sdkReport(s);
              InvokeAsWritten(sessionId, outcome).status == OK ==> r == InvokeAsWritten(sessionId, outcome)
    {
      var outcome := match glideService.ReportInvocation(sessionId)
                     case Threw(e) => Threw(e)
                     case Returned(s) => sdkReport(s);
      InvokeNeverFails(sessionId, outcome);
      Invoke(sessionId, outcome)
    }

    /** POST /api/phone-auth/complete. Both body fields are required (400);
        the fe_code must come from the binding cookie of the same browser
        (403), and only then is the aggregator called, with exactly the
        session key, the fe_code and the agg_code. */
    method Complete(sessionKey: Option<string>, aggCode: Option<string>, cookieHeader: Option<string>,
                    parseBindingCookie: (string, string) -> Option<string>, complete: CompleteCall -> Outcome<()>)
      returns (reply: Reply<()>, call: Option<CompleteCall>)
      ensures sessionKey.None? || aggCode.None? ==>
                call.None? && reply == Reply(BadRequest, JsonBody(MissingRequiredFieldBody()))
      ensures call.Some? <==> sessionKey.Some? && aggCode.Some? && cookieHeader.Some?
                              && parseBindingCookie(cookieHeader.value, sessionKey.value).Some?
      ensures call.Some? ==> call.value == CompleteCall(sessionKey.value, parseBindingCookie(cookieHeader.value, sessionKey.value).value,
                                                        aggCode.value)
                             && reply == CompleteResult(complete(call.value))
      ensures sessionKey.Some? && aggCode.Some? && call.None? ==> reply == Reply(Forbidden, JsonBody(MissingBindingCookieBody()))
    {
      call := None;
      if sessionKey.None? || aggCode.None? {
        reply := Reply(BadRequest, JsonBody(MissingRequiredFieldBody()));
        return;
      }
      var feCode: Option<string> := None;
      if cookieHeader.Some? {
        feCode := parseBindingCookie(cookieHeader.value, sessionKey.value);
      }
      if feCode.None? {
        reply := Reply(Forbidden, JsonBody(MissingBindingCookieBody()));
        return;
      }
      var made := CompleteCall(sessionKey.value, feCode.value, aggCode.value);
      var outcome := complete(made);
      reply := CompleteResult(outcome);
      call := Some(made);
    }

    /** GET /api/phone-auth/status/{sessionId}: the stored URL is read (an
        expired entry is evicted on the way) and the poll relayed. */
    method GetStatus(sessionId: string, fetch: string -> Upstream, parseJson: string -> Outcome<JsonValue>, now: int)
      returns (reply: Reply<JsonValue>)
      requires forall url :: fetch(url).Answered? ==> 0 <= fetch(url).status <= 999
      modifies sessionStore
      ensures reply == StatusRelay(Lookup(old(sessionStore.store), sessionId, now), fetch, parseJson)
      ensures sessionStore.store == if sessionId in old(sessionStore.store) && Expired(old(sessionStore.store)[sessionId], now)
                                    then old(sessionStore.store) - {sessionId} else old(sessionStore.store)
      ensures forall k :: Lookup(sessionStore.store, k, now) == Lookup(old(sessionStore.store), k, now)
    {
      var statusUrl := sessionStore.GetStatusUrl(sessionId, now);
      reply := StatusRelay(statusUrl, fetch, parseJson);
    }
  }

  /** A poll within the TTL of a prepare that stored a URL never gets 404
      from the store: the poll is relayed to that URL. */
  lemma {:induction false} PollAfterPrepareReachesUpstream(store: map<string, Entry>, sessionKey: string, url: string,
                                                           storedAt: int, now: int, fetch: string -> Upstream,
                                                           parseJson: string -> Outcome<JsonValue>)
    requires storedAt <= now <= storedAt + TtlNanos
    requires fetch(url).Answered? ==> 0 <= fetch(url).status <= 999
    ensures StatusRelay(Lookup(store[sessionKey := FreshEntry(url, storedAt)], sessionKey, now), fetch, parseJson)
            == StatusRelay(Some(url), fetch, parseJson)
  {
    StoredUrlLiveForTtl(store, sessionKey, url, storedAt, now);
  }
}
