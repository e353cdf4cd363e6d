/** The `GlideService` of the standalone Java application: an SDK client
    configured from an API key, guarding every call on its `initialized` flag.
    It has no `reportInvocation`. */
module SrcGlideService {
  import opened Common
  import opened UseCaseName
  import opened ProcessRequest
  import opened GlideRequests

  /** The canonical name of the SDK enum `UseCase.valueOf` reports. */
  const UseCaseEnum := "com.glideidentity.services.dto.MagicAuthDtos.UseCase"

  class GlideService {
    /** Whether `glideClient` holds a client. */
    var hasClient: bool
    var initialized: bool

    /** The flag is only ever raised together with the client. */
    ghost predicate Valid()
      reads this
    {
      initialized ==> hasClient
    }

    constructor()
      ensures Valid() && !initialized && !hasClient
    {
      hasClient := false;
      initialized := false;
    }

    /** The post-construction hook: a client is created, and the service
        marked initialized, only when the API key is set; otherwise nothing
        changes. The debug settings it reads only affect logging. */
    method Init(apiKey: Option<string>)
      requires Valid()
      modifies this
      ensures Valid()
      ensures apiKey.Some? ==> initialized && hasClient
      ensures apiKey.None? ==> initialized == old(initialized) && hasClient == old(hasClient)
    {
      if apiKey.Some? {
        hasClient := true;
        initialized := true;
      }
    }

    /** The request `prepare` sends to the SDK, or the exception it throws
        first. */
    function Prepare(request: PrepareRequest): (r: Outcome<SdkPrepareRequest>)
      reads this
      ensures !initialized ==> r == Threw(IllegalState(Some(NotInitializedMessage)))
      ensures initialized ==> r == BuildPrepareRequest(request, UseCaseEnum)
    {
      if !initialized then Threw(IllegalState(Some(NotInitializedMessage)))
      else BuildPrepareRequest(request, UseCaseEnum)
    }

    /** The credential call `processCredential` makes, or the exception it
        throws first. */
    function ProcessCredential(request: PhoneAuthProcessRequest,
                               convertSession: JsonValue -> Outcome<JsonValue>): (r: Outcome<CredentialCall>)
      reads this
      ensures !initialized ==> r == Threw(IllegalState(Some(NotInitializedMessage)))
      ensures initialized ==> r == DispatchCredential(request, convertSession)
    {
      if !initialized then Threw(IllegalState(Some(NotInitializedMessage)))
      else DispatchCredential(request, convertSession)
    }

    /** The capability names: both names exactly when the service is
        initialized with a client, none otherwise. */
    function GetProperties(): (r: seq<string>)
      reads this
      ensures Valid() ==> (r != [] <==> initialized)
      ensures r != [] ==> r == ["magicAuth", "initialized"]
    {
      if initialized && hasClient then ["magicAuth", "initialized"] else []
    }
  }

  /** A service whose credentials are configured accepts both front-end use
      cases at `prepare`; an unconfigured one refuses everything. */
  lemma {:induction false} ConfiguredServiceAcceptsKnownUseCases(service: GlideService, request: PrepareRequest)
    requires service.initialized
    requires request.useCase == Some("GetPhoneNumber") || request.useCase == Some("VerifyPhoneNumber")
    ensures service.Prepare(request).Returned?
    ensures service.Prepare(request).value.phoneNumber == request.phoneNumber
  {
    KnownUseCasesBuild(request, UseCaseEnum);
  }
}
