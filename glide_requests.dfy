/** What both Java `GlideService` variants hand to the SDK: the prepare
    request assembled by the SDK builder, and the credential call chosen from
    the request's use case. The SDK's own answers are not part of this model;
    the services are described by the call they make or the exception they
    throw before making it. */
module GlideRequests {
  import opened Common
  import opened UseCaseName
  import opened ProcessRequest

  datatype Plmn = Plmn(mcc: Option<string>, mnc: Option<string>)
  datatype ConsentData = ConsentData(consentText: Option<string>, policyLink: Option<string>,
                                     policyText: Option<string>)
  datatype ClientInfo = ClientInfo(userAgent: Option<string>, platform: Option<string>)

  /** The `PrepareRequest` body the controllers bind; every field may be null. */
  datatype PrepareRequest = PrepareRequest(useCase: Option<string>, phoneNumber: Option<string>,
                                           plmn: Option<Plmn>, consentData: Option<ConsentData>,
                                           clientInfo: Option<ClientInfo>)

  /** The SDK request the builder builds; a setter that was not called leaves
      its field absent. */
  datatype SdkPrepareRequest = SdkPrepareRequest(useCase: Option<UseCase>, phoneNumber: Option<string>,
                                                 plmn: Option<Plmn>, consentData: Option<ConsentData>,
                                                 clientInfo: Option<ClientInfo>)

  /** The SDK credential call `processCredential` makes: the request's
      credential and the session converted to the SDK's session type. */
  datatype CredentialCall =
    | VerifyPhoneNumberCall(credential: Option<string>, session: JsonValue)
    | GetPhoneNumberCall(credential: Option<string>, session: JsonValue)

  /** The message of the IllegalStateException every guarded call throws. */
  const NotInitializedMessage := "Glide client not initialized. Check your credentials."

  /** Java's string concatenation writes null as "null". */
  function NullText(s: Option<string>): string
  {
    if s.Some? then s.value else "null"
  }

  /** The builder steps of `prepare`: the use case converted to its enum
      constant, then every non-null optional field copied, and nothing set for
      a null one. An unknown constant name makes `UseCase.valueOf` throw before
      anything reaches the SDK. */
  function BuildPrepareRequest(request: PrepareRequest, enumClass: string): (r: Outcome<SdkPrepareRequest>)
    ensures r.Threw? <==> request.useCase.Some? && ValueOf(EnumName(request.useCase.value), enumClass).Threw?
    ensures r.Threw? ==> r.thrown == IllegalArgument(Some("No enum constant " + enumClass + "." + EnumName(request.useCase.value)))
    ensures r.Returned? ==> r.value.useCase.Some? <==> request.useCase.Some?
    ensures r.Returned? && request.useCase.Some? ==>
              ValueOf(EnumName(request.useCase.value), enumClass) == Returned(r.value.useCase.value)
    ensures r.Returned? ==> r.value.phoneNumber == request.phoneNumber && r.value.plmn == request.plmn
                            && r.value.consentData == request.consentData && r.value.clientInfo == request.clientInfo
  {
    var useCase :=
      if request.useCase.None? then Returned(None)
      else match ValueOf(EnumName(request.useCase.value), enumClass)
           case Returned(c) => Returned(Some(c))
           case Threw(e) => Threw(e);
    match useCase
    case Threw(e) => Threw(e)
    case Returned(u) =>
      Returned(SdkPrepareRequest(u, request.phoneNumber, request.plmn, request.consentData, request.clientInfo))
  }

  /** The two use cases the front end sends build a request carrying the
      matching constant. */
  lemma KnownUseCasesBuild(request: PrepareRequest, enumClass: string)
    requires request.useCase == Some("GetPhoneNumber") || request.useCase == Some("VerifyPhoneNumber")
    ensures BuildPrepareRequest(request, enumClass).Returned?
    ensures request.useCase == Some("GetPhoneNumber") ==>
              BuildPrepareRequest(request, enumClass).value.useCase == Some(GET_PHONE_NUMBER)
    ensures request.useCase == Some("VerifyPhoneNumber") ==>
              BuildPrepareRequest(request, enumClass).value.useCase == Some(VERIFY_PHONE_NUMBER)
  {
    var name := request.useCase.value;
    if request.useCase == Some("GetPhoneNumber") {
      GetPhoneNumberName("Get", "Phone", "Number", enumClass);
      assert ValueOf(EnumName(name), enumClass) == Returned(GET_PHONE_NUMBER);
    } else {
      VerifyPhoneNumberName("Verify", "Phone", "Number", enumClass);
      assert ValueOf(EnumName(name), enumClass) == Returned(VERIFY_PHONE_NUMBER);
    }
  }

  /** The dispatch of `processCredential` once the service is initialized:
      the session is converted first (a failed conversion throws), then the
      exact string "VerifyPhoneNumber" selects verification, "GetPhoneNumber"
      retrieval, and anything else, null included, throws
      IllegalArgumentException naming the value. */
  function DispatchCredential(request: PhoneAuthProcessRequest,
                              convertSession: JsonValue -> Outcome<JsonValue>): (r: Outcome<CredentialCall>)
    ensures convertSession(request.session).Threw? ==> r == Threw(convertSession(request.session).thrown)
    ensures r.Returned? <==> convertSession(request.session).Returned?
                             && (request.useCase == Some("VerifyPhoneNumber") || request.useCase == Some("GetPhoneNumber"))
    ensures r.Returned? && request.useCase == Some("VerifyPhoneNumber") ==>
              r.value == VerifyPhoneNumberCall(request.credential, convertSession(request.session).value)
    ensures r.Returned? && request.useCase == Some("GetPhoneNumber") ==>
              r.value == GetPhoneNumberCall(request.credential, convertSession(request.session).value)
    ensures convertSession(request.session).Returned? && r.Threw? ==>
              r.thrown == IllegalArgument(Some("Invalid use_case: " + NullText(request.useCase)))
  {
    match convertSession(request.session)
    case Threw(e) => Threw(e)
    case Returned(session) =>
      if request.useCase == Some("VerifyPhoneNumber") then
        Returned(VerifyPhoneNumberCall(request.credential, session))
      else if request.useCase == Some("GetPhoneNumber") then
        Returned(GetPhoneNumberCall(request.credential, session))
      else
        Threw(IllegalArgument(Some("Invalid use_case: " + NullText(request.useCase))))
  }

  /** Dispatch is on the literal names only: the enum spelling accepted by
      `prepare` is rejected here. */
  lemma DispatchRejectsEnumSpelling(request: PhoneAuthProcessRequest,
                                    convertSession: JsonValue -> Outcome<JsonValue>)
    requires request.useCase == Some("GET_PHONE_NUMBER") && convertSession(request.session).Returned?
    ensures DispatchCredential(request, convertSession)
            == Threw(IllegalArgument(Some("Invalid use_case: " + "GET_PHONE_NUMBER")))
  {
    var name := request.useCase.value;
    assert name[0] == 'G' && name[1] == 'E';
    assert name != "VerifyPhoneNumber" && name != "GetPhoneNumber" by {
      assert "VerifyPhoneNumber"[0] == 'V' && "GetPhoneNumber"[1] == 'e';
    }
  }
}
