/** `PhoneAuthController` of the standalone Java application: prepare and
    process through the API-key `GlideService`, and a status proxy that
    builds the public status URL from a configured base URL. */
module SrcController {
  import opened Common
  import opened Http
  import opened ProcessRequest
  import opened GlideRequests
  import opened JavaErrors
  import opened SrcGlideService

  const DefaultBaseUrl := "https://api.glideidentity.app"

  /** `GLIDE_API_BASE_URL`, falling back to the public API when unset or empty. */
  function ResolveBaseUrl(configured: Option<string>): (r: string)
    ensures configured.Some? && configured.value != "" ==> r == configured.value
    ensures configured.None? || configured == Some("") ==> r == DefaultBaseUrl
    ensures r != ""
  {
    if configured.Some? && configured.value != "" then configured.value else DefaultBaseUrl
  }

  /** The status URL polled for a session: the base, "/public/status/", and
      the session ID exactly as it came in the path. */
  function StatusUrl(baseUrl: string, sessionId: string): (r: string)
    ensures |r| >= |baseUrl| && r[..|baseUrl|] == baseUrl && r[|baseUrl|..] == "/public/status/" + sessionId
  {
    baseUrl + "/public/status/" + sessionId
  }

  /** The request headers of a status poll: JSON is accepted, and the
      developer header is added only for a non-empty `GLIDE_DEV_ENV`. */
  function StatusHeaders(devEnv: Option<string>): (r: seq<(string, string)>)
    ensures |r| >= 1 && r[0] == ("Accept", "application/json")
    ensures |r| == 2 <==> devEnv.Some? && devEnv.value != ""
    ensures |r| == 2 ==> r[1] == ("developer", devEnv.value)
    ensures |r| <= 2
  {
    if devEnv.Some? && devEnv.value != "" then [("Accept", "application/json"), ("developer", devEnv.value)]
    else [("Accept", "application/json")]
  }

  /** The 500 reply of a failed poll: `Map.of` of "Status check failed" and
      the exception's message, which throws itself on a null message. */
  function StatusCheckFailed(message: Option<string>): (r: Reply<JsonValue>)
    ensures message.Some? ==>
              r == Reply(InternalServerError, JsonBody(JObject([("error", JString("Status check failed")),
                                                                ("message", JString(message.value))])))
    ensures message.None? ==> r == Escaped()
  {
    JavaReply(InternalServerError, MapOf("error", Some(JString("Status check failed")), "message", Str(message)))
  }

  /** The status proxy's reply to the upstream answer: an error status is
      relayed with its raw body, a success body is parsed and answered 200,
      and any failure becomes 500 with "Status check failed" and the
      exception's message (a null one makes `Map.of` throw). */
  function StatusReplyOf(upstream: Upstream, parseJson: string -> Outcome<JsonValue>): (r: Reply<JsonValue>)
    requires upstream.Answered? ==> 0 <= upstream.status <= 999
    ensures upstream.Answered? && upstream.status >= 400 ==> r == Reply(upstream.status, RawBody(upstream.body))
    ensures r.status == OK <==> upstream.Answered? && upstream.status < 400 && parseJson(upstream.body).Returned?
    ensures r.status == OK ==> r == Reply(OK, JsonBody(parseJson(upstream.body).value))
    ensures upstream.Failed? ==> r == StatusCheckFailed(upstream.message)
    ensures upstream.Answered? && upstream.status < 400 && parseJson(upstream.body).Threw? ==>
              r == StatusCheckFailed(parseJson(upstream.body).thrown.message)
  {
    match upstream
    case Failed(message) => StatusCheckFailed(message)
    case Answered(status, text) =>
      if status >= 400 then Reply(status, RawBody(text))
      else match parseJson(text)
           case Returned(json) => Reply(OK, JsonBody(json))
           case Threw(e) => StatusCheckFailed(e.message)
  }

  class PhoneAuthController {
    const glideService: GlideService
    const glideApiBaseUrl: string
    const glideDevEnv: Option<string>
    /** The `spring.profiles.active` system property. */
    const profile: Option<string>

    /** Reads the base URL and the developer environment once, at construction. */
    constructor(glideService: GlideService, baseUrl: Option<string>, devEnv: Option<string>, profile: Option<string>)
      ensures this.glideService == glideService && this.profile == profile
      ensures glideApiBaseUrl == ResolveBaseUrl(baseUrl) && glideDevEnv == devEnv
    {
      this.glideService := glideService;
      this.glideApiBaseUrl := ResolveBaseUrl(baseUrl);
      this.glideDevEnv := devEnv;
      this.profile := profile;
    }

    /** POST /api/phone-auth/prepare: the SDK's answer (`sdkPrepare`) to the
        request the service builds is answered 200; every exception on the
        way goes through the shared mapping. */
    function Prepare(request: PrepareRequest, sdkPrepare: SdkPrepareRequest -> Outcome<JsonValue>): (r: Reply<JsonValue>)
      reads glideService
      ensures glideService.Prepare(request).Threw? ==>
                r == ServiceErrorReply(glideService.Prepare(request).thrown, Environment(profile))
      ensures glideService.Prepare(request).Returned? ==>
                var answer := sdkPrepare(glideService.Prepare(request).value);
                (answer.Returned? ==> r == Reply(OK, Entity(answer.value)))
                && (answer.Threw? ==> r == ServiceErrorReply(answer.thrown, Environment(profile)))
    {
      match glideService.Prepare(request)
      case Threw(e) => ServiceErrorReply(e, Environment(profile))
      case Returned(built) =>
        match sdkPrepare(built)
        case Returned(response) => Reply(OK, Entity(response))
        case Threw(e) => ServiceErrorReply(e, Environment(profile))
    }

    /** POST /api/phone-auth/process: the SDK's answer (`sdkCall`) to the
        credential call the service chooses is answered 200; exceptions go
        through the shared mapping. */
    function Process(request: PhoneAuthProcessRequest, convertSession: JsonValue -> Outcome<JsonValue>,
                     sdkCall: CredentialCall -> Outcome<JsonValue>): (r: Reply<JsonValue>)
      reads glideService
      ensures glideService.ProcessCredential(request, convertSession).Threw? ==>
                r == ServiceErrorReply(glideService.ProcessCredential(request, convertSession).thrown, Environment(profile))
      ensures glideService.ProcessCredential(request, convertSession).Returned? ==>
                var answer := sdkCall(glideService.ProcessCredential(request, convertSession).value);
                (answer.Returned? ==> r == Reply(OK, Entity(answer.value)))
                && (answer.Threw? ==> r == ServiceErrorReply(answer.thrown, Environment(profile)))
    {
      match glideService.ProcessCredential(request, convertSession)
      case Threw(e) => ServiceErrorReply(e, Environment(profile))
      case Returned(call) =>
        match sdkCall(call)
        case Returned(result) => Reply(OK, Entity(result))
        case Threw(e) => ServiceErrorReply(e, Environment(profile))
    }

    /** GET /api/phone-auth/status/{sessionId}: `fetch` is the HTTP client's
        answer to a GET of the URL with the headers. */
    function GetStatus(sessionId: string, fetch: (string, seq<(string, string)>) -> Upstream,
                       parseJson: string -> Outcome<JsonValue>): (r: Reply<JsonValue>)
      requires forall url, headers :: fetch(url, headers).Answered? ==> 0 <= fetch(url, headers).status <= 999
      ensures r == StatusReplyOf(fetch(StatusUrl(glideApiBaseUrl, sessionId), StatusHeaders(glideDevEnv)), parseJson)
    {
      StatusReplyOf(fetch(StatusUrl(glideApiBaseUrl, sessionId), StatusHeaders(glideDevEnv)), parseJson)
    }
  }

  /** An unconfigured service answers every prepare with 500; outside
      development the body is the fixed INTERNAL_ERROR and reveals nothing. */
  lemma {:induction false} PrepareWithoutApiKeyIsInternalError(controller: PhoneAuthController, request: PrepareRequest,
                                                             sdkPrepare: SdkPrepareRequest -> Outcome<JsonValue>)
    requires !controller.glideService.initialized
    requires Environment(controller.profile) != "development"
    ensures controller.Prepare(request, sdkPrepare)
            == Reply(InternalServerError, JavaErrorBody(Some("INTERNAL_ERROR"), Some(UnexpectedErrorText), None, None))
  {
    InternalErrorsAreOpaqueOutsideDevelopment<JsonValue>(IllegalState(Some(NotInitializedMessage)), Environment(controller.profile));
  }

  /** An unknown use case at process is a 400 that names it, once the service
      is initialized and the session converts. */
  lemma {:induction false} ProcessRejectsUnknownUseCase(controller: PhoneAuthController, request: PhoneAuthProcessRequest,
                                                      convertSession: JsonValue -> Outcome<JsonValue>,
                                                      sdkCall: CredentialCall -> Outcome<JsonValue>)
    requires controller.glideService.initialized && convertSession(request.session).Returned?
    requires request.useCase != Some("VerifyPhoneNumber") && request.useCase != Some("GetPhoneNumber")
    ensures controller.Process(request, convertSession, sdkCall)
            == Reply(BadRequest, JavaErrorBody(Some("VALIDATION_ERROR"), Some("Invalid use_case: " + NullText(request.useCase)), None, None))
  {
  }
}
