# Phone authentication quickstart servers: a Dafny model

This project models the server side of a carrier-based phone authentication
demo. A browser asks the backend to *prepare* a session, obtains a signed
credential from the platform, and has the backend *process* it into a
verified phone number. Four backend variants are modelled: a Java server
with device binding and a status-URL store, a standalone Java application
that uses an API key, a Go server with a session store, and a root Go
server that polls a fixed public status URL.

The model covers four parts:

- **The status-URL registry** (`Registry`, `JavaSessionStore`,
  `GoSessionStore`). It maps a session key to a polling URL and an expiry
  instant five minutes after the store. Instants are integer nanoseconds,
  and the clock is the `now` argument. Both variants use a strict "before"
  test, so an entry that expires exactly at `now` is still live. The Java
  read removes an expired entry. The Go read leaves it for the sweep. Both
  classes hold the map as a field that their methods reassign. The Go sweep
  is a loop over the keys that deletes the expired ones.
- **The request handlers** of all four variants. Each is a function or
  method from abstract inputs to a `Reply` (status and body shape). The SDK,
  the HTTP client, the JSON parser and the binding-cookie helpers are
  function parameters, so each of their outcomes can be chosen freely.
  Where Java's `Map.of` would throw on a null value, the model says so: the
  handler's own exception escapes and the container answers 500. Where Go's
  `WriteHeader` would panic on a status outside 100..999, the model says
  that too.
- **The use-case name conversion** of both Java `GlideService` variants.
  It is the regular-expression replacement of `([a-z])([A-Z])` by `$1_$2`
  followed by upper-casing. Lemmas prove that the result is the input,
  upper-cased and in order, with exactly one underscore after each
  lower-to-upper boundary and nothing else. They also prove that
  "GetPhoneNumber" and "VerifyPhoneNumber" map to their enum constants and
  that the conversion is idempotent. After that comes the dispatch on the
  literal use-case names, behind the initialization guards.
- **Session-key extraction** from the loosely typed `session` object of
  the Java process request.

## Model

| member | source | states |
|---|---|---|
| `Registry.FreshEntry` | server/java/src/main/java/com/glideidentity/service/SessionStoreService.java:29-33 | A stored entry keeps the URL and is live up to and including `now + 300 s`, and expired one nanosecond later |
| `Registry.Lookup` | server/java/src/main/java/com/glideidentity/service/SessionStoreService.java:37-47 | A read finds a URL iff the key is present and its expiry is not before `now`, and then it is the stored URL |
| `Registry.Swept` | server/go/session_store.go:33-42 | A sweep keeps only keys that were there, each with its own entry and not expired, and keeps every live one |
| `Registry.StoredUrlLiveForTtl` | server/java/src/main/java/com/glideidentity/service/SessionStoreService.java:37-47 | A URL stored at `t` is returned by every read at `now <= t + TTL` and by none after, with no sweep needed |
| `Registry.StoreAffectsOnlyItsKey` | server/go/session_store.go:44-52 | Storing under one key leaves what every other key reads unchanged |
| `Registry.SweepRemovesExactlyExpired` | server/java/src/main/java/com/glideidentity/service/SessionStoreService.java:56-60 | A sweep keeps exactly the keys not expired at `now`, each with its original value, and every kept entry is live |
| `Registry.SweepPartitionsEntries` | server/go/session_store.go:33-42 | Kept entries plus deleted entries number the entries there were |
| `Registry.SweepIdempotent` | server/java/src/main/java/com/glideidentity/service/SessionStoreService.java:58-59 | Sweeping twice at the same instant equals sweeping once |
| `Registry.LaterSweepSubsumes` | server/go/session_store.go:23-31 | A sweep at a later instant after one at an earlier instant equals the later sweep alone |
| `Registry.SweepInvisibleToReads` | server/go/session_store.go:54-63 | A read at `now` gives the same answer before and after a sweep at `now` |
| `JavaSessionStore.SessionStoreService.constructor` | server/java/src/main/java/com/glideidentity/service/SessionStoreService.java:26 | The store starts empty |
| `JavaSessionStore.SessionStoreService.StoreStatusUrl` | server/java/src/main/java/com/glideidentity/service/SessionStoreService.java:29-34 | The new map is the old one with `key ↦ (url, now + TTL)`, overwriting any entry; reads of other keys are unchanged |
| `JavaSessionStore.SessionStoreService.GetStatusUrl` | server/java/src/main/java/com/glideidentity/service/SessionStoreService.java:37-47 | Returns the URL iff the entry exists and is not before `now`; an expired entry alone is removed; otherwise the map is unchanged, so polling never extends expiry |
| `JavaSessionStore.SessionStoreService.CleanupExpiredSessions` | server/java/src/main/java/com/glideidentity/service/SessionStoreService.java:56-60 | The new map is exactly the live entries of the old one, with their values |
| `GoSessionStore.SessionStore.constructor` | server/go/session_store.go:18-21 | The store starts empty |
| `GoSessionStore.SessionStore.StoreStatusUrl` | server/go/session_store.go:44-52 | The map gets `key ↦ (url, now + 5 min)`, overwriting; reads of other keys are unchanged |
| `GoSessionStore.SessionStore.GetStoredStatusUrl` | server/go/session_store.go:54-63 | `(url, true)` iff the key is present and not expired; `("", false)` otherwise; it changes nothing, so an expired entry stays |
| `GoSessionStore.SessionStore.CleanupExpiredSessions` | server/go/session_store.go:33-42 | The loop leaves exactly the live entries with their values; every remaining entry is live |
| `Common.Member` | server/java/src/main/java/com/glideidentity/dto/PhoneAuthProcessRequest.java:17 | A member lookup finds nothing iff no member has the name; otherwise it gives the value of the last member with that name, as a decoder that fills a map does |
| `Http.JavaReply` | server/java/src/main/java/com/glideidentity/controller/PhoneAuthController.java:202 | A built `Map.of` body is answered with the given status; a `Map.of` that threw escapes the handler, and the container answers 500 |
| `Http.MapOf` | server/java/src/main/java/com/glideidentity/controller/PhoneAuthController.java:202 | `Map.of` builds the two-member object iff both values are non-null, and otherwise throws |
| `JavaErrors.Environment` | server/java/src/main/java/com/glideidentity/controller/PhoneAuthController.java:308-310 | The environment is the active profile, or "production" when unset |
| `JavaErrors.StatusReply` | server/java/src/main/java/com/glideidentity/controller/PhoneAuthController.java:96 | A three-digit status is answered as given; any other makes Spring throw, so the handler escapes with a container 500 |
| `JavaErrors.InternalDetails` | server/java/src/main/java/com/glideidentity/controller/PhoneAuthController.java:108-113 | Details are the exception message only in development, null elsewhere; a null message in development throws |
| `JavaErrors.ServiceErrorReply` | server/java/src/main/java/com/glideidentity/controller/PhoneAuthController.java:84-115 | SDK error → its own status, code, message, request ID and details; IllegalArgumentException → 400 VALIDATION_ERROR; anything else → 500 INTERNAL_ERROR |
| `JavaErrors.InternalErrorsAreOpaqueOutsideDevelopment` | src/main/java/com/glideidentity/controller/PhoneAuthController.java:69-79 | Outside development an unexpected exception yields the fixed 500 body with no details, whatever the exception |
| `JavaErrors.ServiceErrorsAreErrors` | server/java/src/main/java/com/glideidentity/controller/PhoneAuthController.java:142-173 | The exception mapping never answers with a status below 400 |
| `Text.Preview` | server/go/main.go:205-209 | A string longer than `n` becomes its first `n` characters plus the suffix; otherwise it is unchanged |
| `Text.PreviewRevealsOnlyPrefix` | server/java/src/main/java/com/glideidentity/controller/PhoneAuthController.java:191-193 | Two long strings with the same first 8 characters have the same preview: nothing after the prefix is revealed |
| `Text.TrimPrefix` | server/go/main.go:361 | With the prefix present, prefix plus result is the input; otherwise the input is unchanged |
| `Text.IsSpace` | server.go:358 | `unicode.IsSpace`: among ASCII characters exactly space, tab, newline, vertical tab, form feed and carriage return; no white-space character lies above U+3000 |
| `Text.TrimLeft` | server/go/main.go:362 | The result is a suffix of the input, only white space was removed, and it does not start with white space |
| `Text.TrimRight` | server.go:358 | The result is a prefix of the input, only white space was removed, and it does not end with white space |
| `Text.TrimSpace` | server.go:358 | The trimmed ID is never longer than the path rest, and an ID without white space is kept as it is |
| `Text.TrimSpaceBounds` | server.go:357-358 | The trimmed ID is the slice `s[i..j]`, with only white space before `i` and after `j` |
| `Text.TrimSpaceKeepsTheCore` | server/go/main.go:360-362 | The trimmed ID is one contiguous piece of the input, and it neither starts nor ends with white space |
| `Text.TrimSpaceEmptyIffAllSpace` | server/go/main.go:362-367 | The ID is rejected as empty iff the path rest is all white space |
| `Text.LowerChar` | server/java/src/main/java/com/glideidentity/controller/PhoneAuthController.java:75 | An upper-case ASCII letter moves 32 code points down; other characters are kept; the result is never upper-case |
| `Text.Lower` | server/java/src/main/java/com/glideidentity/controller/PhoneAuthController.java:75 | Lower-casing keeps the length and lower-cases each character |
| `Text.LowerIdempotent` | server.go:340 | Lower-casing twice equals lower-casing once |
| `Text.NatDigits` | server/java/src/main/java/com/glideidentity/dto/PhoneAuthProcessRequest.java:18 | `toString` of a natural number is a non-empty string of decimal digits |
| `Text.ByteLength` | server/go/main.go:277 | Go's `len` of a string counts UTF-8 bytes: between one and four per character, and exactly one per character iff the string is ASCII |
| `Text.Decimal` | server/java/src/main/java/com/glideidentity/dto/PhoneAuthProcessRequest.java:18 | `toString` of an integer is never empty |
| `Text.NatDigitsRoundTrip` | server/java/src/main/java/com/glideidentity/dto/PhoneAuthProcessRequest.java:17-18 | Reading the decimal text back gives the number written |
| `UseCaseName.UpperChar` | server/java/src/main/java/com/glideidentity/service/GlideService.java:55 | A lower-case ASCII letter moves 32 code points up; other characters are kept; the result is never lower-case |
| `UseCaseName.Underscored` | server/java/src/main/java/com/glideidentity/service/GlideService.java:54 | The replacement only lengthens the name, at most doubling it, and keeps its first and last characters |
| `UseCaseName.EnumName` | server/java/src/main/java/com/glideidentity/service/GlideService.java:51-57 | The enum name leaves no lower-case letter, is at least as long as the use case and at most twice as long, and starts with its upper-cased first character |
| `UseCaseName.Upper` | src/main/java/com/glideidentity/service/GlideService.java:83 | Upper-casing keeps the length and upper-cases each character |
| `UseCaseName.UnderscoredLength` | server/java/src/main/java/com/glideidentity/service/GlideService.java:54 | The replacement adds exactly one character per lower-to-upper boundary |
| `UseCaseName.UnderscoredKeeps` | server/java/src/main/java/com/glideidentity/service/GlideService.java:53-54 | Input character `i` is found at `i` plus the number of boundaries before it |
| `UseCaseName.UnderscoredInserts` | server/java/src/main/java/com/glideidentity/service/GlideService.java:54 | An underscore follows every boundary |
| `UseCaseName.EnumNameLength` | server/java/src/main/java/com/glideidentity/service/GlideService.java:53-55 | Output length equals input length plus the number of boundaries |
| `UseCaseName.EnumNameKeepsAll` | server/java/src/main/java/com/glideidentity/service/GlideService.java:53-55 | Every input character, upper-cased, appears in order at `i` plus the boundaries before it |
| `UseCaseName.EnumNameInsertsAll` | src/main/java/com/glideidentity/service/GlideService.java:81-83 | An underscore follows every lower-to-upper boundary; with the two lemmas above, nothing else is added |
| `UseCaseName.EnumNameKeeps` | src/main/java/com/glideidentity/service/GlideService.java:82-83 | A single input character, upper-cased, at its shifted position |
| `UseCaseName.EnumNameInserts` | src/main/java/com/glideidentity/service/GlideService.java:82 | The underscore after a single boundary, at its shifted position |
| `UseCaseName.EnumNameAt` | src/main/java/com/glideidentity/service/GlideService.java:83 | Upper-casing the replaced string is position-wise |
| `UseCaseName.EnumNameHasNoLowerCase` | server/java/src/main/java/com/glideidentity/service/GlideService.java:55 | A converted name has no lower-case letter |
| `UseCaseName.UnderscoredWithoutLowerCase` | server/java/src/main/java/com/glideidentity/service/GlideService.java:54 | Without lower-case letters the replacement changes nothing |
| `UseCaseName.UpperIdempotent` | src/main/java/com/glideidentity/service/GlideService.java:83 | Upper-casing twice equals upper-casing once |
| `UseCaseName.EnumNameIdempotent` | server/java/src/main/java/com/glideidentity/service/GlideService.java:53-55 | Converting an already converted name changes nothing, so "GET_PHONE_NUMBER" reaches the same constant |
| `UseCaseName.UnderscoredJoin` | src/main/java/com/glideidentity/service/GlideService.java:82 | Replacing in a concatenation equals replacing in both parts, joined by "_" exactly when they meet at a boundary |
| `UseCaseName.UnderscoredThreeWords` | server/java/src/main/java/com/glideidentity/service/GlideService.java:54 | Three words that meet at boundaries are joined by one underscore each |
| `UseCaseName.UnderscoredWithoutUpperCase` | src/main/java/com/glideidentity/service/GlideService.java:82 | With no upper-case letter after the first position nothing is inserted |
| `UseCaseName.EnumNameOfThreeWords` | server/java/src/main/java/com/glideidentity/service/GlideService.java:53-55 | Three capitalised words convert to the words upper-cased, joined by underscores |
| `UseCaseName.GetPhoneNumberName` | src/main/java/com/glideidentity/service/GlideService.java:79-85 | "GetPhoneNumber" converts to "GET_PHONE_NUMBER" and names that constant |
| `UseCaseName.VerifyPhoneNumberName` | server/java/src/main/java/com/glideidentity/service/GlideService.java:51-57 | "VerifyPhoneNumber" converts to "VERIFY_PHONE_NUMBER" and names that constant |
| `UseCaseName.ValueOf` | server/java/src/main/java/com/glideidentity/service/GlideService.java:56 | `valueOf` returns a constant iff the name is one; otherwise it throws IllegalArgumentException |
| `GlideRequests.BuildPrepareRequest` | server/java/src/main/java/com/glideidentity/service/GlideService.java:47-87 | Throws iff a non-null use case converts to no constant; otherwise the use case is set iff non-null, to the converted constant, and every other field is copied, with null ones left unset |
| `GlideRequests.KnownUseCasesBuild` | src/main/java/com/glideidentity/service/GlideService.java:76-115 | Both front-end use cases build a request carrying the matching constant |
| `GlideRequests.DispatchCredential` | server/java/src/main/java/com/glideidentity/service/GlideService.java:105-125 | After converting the session, "VerifyPhoneNumber" → verify call and "GetPhoneNumber" → retrieval call, with the credential and session; anything else throws `IllegalArgumentException("Invalid use_case: " + value)` |
| `GlideRequests.DispatchRejectsEnumSpelling` | src/main/java/com/glideidentity/service/GlideService.java:140-153 | Dispatch is on the literal names: "GET_PHONE_NUMBER" is rejected |
| `ServerGlideService.GlideService.constructor` | server/java/src/main/java/com/glideidentity/service/GlideService.java:18-19 | A new service has no client and is not initialized |
| `ServerGlideService.GlideService.Init` | server/java/src/main/java/com/glideidentity/service/GlideService.java:22-35 | A client is created and the flag raised iff both client ID and secret are non-null; otherwise nothing changes |
| `ServerGlideService.GlideService.Prepare` | server/java/src/main/java/com/glideidentity/service/GlideService.java:42-91 | Throws IllegalStateException when not initialized; otherwise sends the request the builder steps produce |
| `ServerGlideService.GlideService.ProcessCredential` | server/java/src/main/java/com/glideidentity/service/GlideService.java:100-126 | Throws IllegalStateException when not initialized; otherwise dispatches on the use case |
| `ServerGlideService.GlideService.ReportInvocation` | server/java/src/main/java/com/glideidentity/service/GlideService.java:136-143 | Reports the session ID unchanged iff initialized; otherwise throws IllegalStateException |
| `ServerGlideService.GlideService.GetProperties` | server/java/src/main/java/com/glideidentity/service/GlideService.java:149-153 | `["magicalAuth","initialized"]` iff initialized with a client, else empty |
| `ServerGlideService.ConfiguredServiceAcceptsKnownUseCases` | server/java/src/main/java/com/glideidentity/service/GlideService.java:42-62 | An initialized service accepts both front-end use cases at prepare and passes the phone number on |
| `SrcGlideService.GlideService.constructor` | src/main/java/com/glideidentity/service/GlideService.java:25-26 | A new service has no client and is not initialized |
| `SrcGlideService.GlideService.Init` | src/main/java/com/glideidentity/service/GlideService.java:29-63 | A client is created and the flag raised iff `GLIDE_API_KEY` is non-null; otherwise nothing changes |
| `SrcGlideService.GlideService.Prepare` | src/main/java/com/glideidentity/service/GlideService.java:70-119 | Throws IllegalStateException when not initialized; otherwise sends the request the builder steps produce |
| `SrcGlideService.GlideService.ProcessCredential` | src/main/java/com/glideidentity/service/GlideService.java:128-154 | Throws IllegalStateException when not initialized; otherwise dispatches on the exact use-case strings |
| `SrcGlideService.GlideService.GetProperties` | src/main/java/com/glideidentity/service/GlideService.java:160-164 | `["magicAuth","initialized"]` iff initialized with a client, else empty |
| `SrcGlideService.ConfiguredServiceAcceptsKnownUseCases` | src/main/java/com/glideidentity/service/GlideService.java:70-90 | An initialized service accepts both front-end use cases at prepare and passes the phone number on |
| `ProcessRequest.JavaToString` | server/java/src/main/java/com/glideidentity/dto/PhoneAuthProcessRequest.java:18 | A string is its own text; a natural number's text is decimal digits that read back as it; a list prints in brackets and a map in braces |
| `ProcessRequest.Names` | server/java/src/main/java/com/glideidentity/dto/PhoneAuthProcessRequest.java:18 | A decoded map iterates over every member name once, in first-occurrence order, each with a value |
| `ProcessRequest.GetSessionKey` | server/java/src/main/java/com/glideidentity/dto/PhoneAuthProcessRequest.java:15-21 | Some key iff `session` is a map whose "session_key" is present and not null, and then the value's string form; it only reads `session` |
| `ProcessRequest.StringSessionKey` | server/java/src/main/java/com/glideidentity/dto/PhoneAuthProcessRequest.java:17-18 | A string session key comes back exactly as sent |
| `ProcessRequest.NumericSessionKey` | server/java/src/main/java/com/glideidentity/dto/PhoneAuthProcessRequest.java:18 | A numeric session key comes back as decimal text that reads back as the same number |
| `ProcessRequest.NoSessionKeyOutsideMaps` | server/java/src/main/java/com/glideidentity/dto/PhoneAuthProcessRequest.java:16-20 | A session that is not a map, null included, has no key |
| `JavaController.IsSecure` | server/java/src/main/java/com/glideidentity/controller/PhoneAuthController.java:71-72 | The request is secure iff the scheme is "https" or X-Forwarded-Proto says "https" |
| `JavaController.BindingCookieSecureIffHttps` | server/java/src/main/java/com/glideidentity/controller/PhoneAuthController.java:70-76 | The binding cookie is marked Secure exactly when the request came over HTTPS, directly or through the proxy |
| `JavaController.PrepareDecision` | server/java/src/main/java/com/glideidentity/controller/PhoneAuthController.java:55-83 | A URL is stored iff one is extracted and a session with a key exists; a binding cookie with the lower-cased fe_code and the scheme-derived secure flag is set iff fe_code and session exist, and then the body's fe_code is null; a null key with a URL is an unexpected error |
| `JavaController.FeCodeNeverInPrepareBody` | server/java/src/main/java/com/glideidentity/controller/PhoneAuthController.java:79-80 | With a session present, a successful prepare body never carries the fe_code |
| `JavaController.ProcessFeCode` | server/java/src/main/java/com/glideidentity/controller/PhoneAuthController.java:125-130 | The cookie is parsed only when both the Cookie header and the session key exist; otherwise fe_code is null |
| `JavaController.InvokeAsWritten` | server/java/src/main/java/com/glideidentity/controller/PhoneAuthController.java:180-203 | As written: null or empty ID → 200 `missing_session_id`; a report → 200; only a failure with a null message escapes as a 500 |
| `JavaController.InvokeAsWrittenFailsOnNullMessage` | server/java/src/main/java/com/glideidentity/controller/PhoneAuthController.java:199-202 | A message-less exception turns the "never fail" answer into a container 500 |
| `JavaController.Invoke` | server/java/src/main/java/com/glideidentity/controller/PhoneAuthController.java:181-203 | Corrected: missing ID → `missing_session_id`; a report → 200 with it; a failure → 200 with `success: false` |
| `JavaController.InvokeNeverFails` | server/java/src/main/java/com/glideidentity/controller/PhoneAuthController.java:199-203 | The corrected handler always answers 200 and agrees with the written one wherever that one answers 200 |
| `JavaController.CompleteResult` | server/java/src/main/java/com/glideidentity/controller/PhoneAuthController.java:238-262 | 204 iff the upstream complete succeeds; an SDK error relays its own status, code and message, and one with a null code or message makes `Map.of` throw, so the container answers 500; any other exception → 500 INTERNAL_ERROR |
| `JavaController.StatusCheckFailed` | server/java/src/main/java/com/glideidentity/controller/PhoneAuthController.java:362-367 | 500 with STATUS_CHECK_FAILED and the exception's message; a null message makes `Map.of` throw |
| `JavaController.StatusRelay` | server/java/src/main/java/com/glideidentity/controller/PhoneAuthController.java:321-368 | 404 SESSION_NOT_FOUND iff the registry has no live URL; upstream ≥ 400 → same status and raw body; 200 iff upstream < 400 and the body parses, with the parsed JSON; a transport failure or a body that does not parse → 500 STATUS_CHECK_FAILED with that exception's message, or a container 500 when it has none |
| `JavaController.PhoneAuthController.constructor` | server/java/src/main/java/com/glideidentity/controller/PhoneAuthController.java:32-35 | The controller holds the given service and store |
| `JavaController.PhoneAuthController.Prepare` | server/java/src/main/java/com/glideidentity/controller/PhoneAuthController.java:50-116 | Reply and cookie are those of `PrepareDecision` on the service outcome; the store gains `(key, url, now + TTL)` exactly when a URL is stored and is otherwise unchanged |
| `JavaController.PhoneAuthController.Process` | server/java/src/main/java/com/glideidentity/controller/PhoneAuthController.java:118-174 | The service is called with the cookie-derived fe_code; a result → 200, exceptions → the shared mapping |
| `JavaController.PhoneAuthController.InvokeReport` | server/java/src/main/java/com/glideidentity/controller/PhoneAuthController.java:180-203 | Corrected: always 200; missing ID → `missing_session_id`; an uninitialized service → `success: false` with its message; wherever the handler as written answers, the answer is the same |
| `JavaController.PhoneAuthController.Complete` | server/java/src/main/java/com/glideidentity/controller/PhoneAuthController.java:213-263 | Missing field → 400 MISSING_REQUIRED_FIELD before any cookie check; no header or unparsable cookie → 403 MISSING_BINDING_COOKIE; the upstream is called iff both pass, with exactly key, fe_code and agg_code |
| `JavaController.PhoneAuthController.GetStatus` | server/java/src/main/java/com/glideidentity/controller/PhoneAuthController.java:318-369 | The reply relays the poll of the URL the store holds live at `now`; the new store is the old one without the session's entry when that entry had expired, and the old one otherwise, so what any key reads is unchanged |
| `JavaController.PollAfterPrepareReachesUpstream` | server/java/src/main/java/com/glideidentity/controller/PhoneAuthController.java:321-332 | Within the TTL of a store, a poll is never 404 and goes to the stored URL |
| `GoShared.WithDefaultPlmn` | server/go/main.go:143-150 | PLMN {310, 260} is set iff the use case is GetPhoneNumber, the phone number is empty and the PLMN is nil or incomplete; otherwise the request is unchanged |
| `GoShared.DefaultPlmnCompletesRetrieval` | server.go:176-183 | After the rewrite, a retrieval without a phone number always names a complete PLMN, and the rewrite is idempotent |
| `GoShared.CompletePlmnIsKept` | server/go/main.go:144 | A complete client PLMN is never overridden |
| `GoShared.GlideErrorCall` | server/go/main.go:306-331 | SDK error: status 0 → 500, else its own; details always gain "status", gain "requestId" only when non-empty, and keep the SDK's other details; with an empty request ID an SDK-supplied "requestId" detail is kept as it was; non-SDK error → 500 UNEXPECTED_ERROR |
| `GoShared.RequestIdOf` | server/go/main.go:342-349 | A string "request_id" wins over a string "requestId"; otherwise the ID is empty |
| `GoShared.SdkRequestIdReachesReply` | server.go:303-310 | A non-empty SDK request ID reaches the reply unless the SDK's details carry a string "request_id" |
| `GoShared.WriteStatus` | server/go/main.go:335 | A status in 100..999 is written; any other makes `net/http` panic |
| `GoShared.SessionIdFromPath` | server/go/main.go:360-362 | The ID is the trimmed path after the route prefix |
| `GoShared.ForwardUpstream` | server/go/main.go:388-425 | Bad URL → REQUEST_ERROR; transport error → 500 STATUS_CHECK_FAILED; undecodable body → 500 DECODE_ERROR; otherwise forwarded, with the upstream status if ≥ 400 else 200 |
| `GoMain.SendErrorResponse` | server/go/main.go:333-352 | The error body has the code, the message, the looked-up request ID and the details, under the given status |
| `GoMain.HandleGlideError` | server/go/main.go:306-331 | SDK error → its own status (500 for 0), code and message, with all the SDK-error details (the original status included) and the request ID looked up in them; a status outside 100..999 panics; other error → 500 UNEXPECTED_ERROR, no details |
| `GoMain.ZeroStatusBecomesInternalError` | server/go/main.go:311-324 | Status 0 is answered 500 while the details still report status 0 |
| `GoMain.Server.constructor` | server/go/main.go:51-69 | A client exists iff both client ID and secret are non-empty |
| `GoMain.Server.PrepareHandler` | server/go/main.go:123-172 | Non-POST → 405; no client → 503 SDK_NOT_INITIALIZED; bad body → 400; the SDK gets the PLMN-defaulted request; a non-empty status URL is stored with a fresh TTL, else the store is unchanged |
| `GoMain.InvokeAnswer` | server/go/main.go:189-222 | An invoke answer holds exactly two members: `success: false` and the given reason or error |
| `GoMain.Server.InvokeHandler` | server/go/main.go:176-228 | Every POST is answered 200; reasons checked in order: `invalid_request_body`, `missing_session_id`, `client_not_configured` |
| `GoMain.Server.ProcessHandler` | server/go/main.go:230-304 | No client → 503; empty use case or credential → 400 VALIDATION_ERROR; a use case other than the two → 400 VALIDATION_ERROR naming it; else the matching SDK call, whose error goes through the SDK-error mapping |
| `GoMain.Server.ProcessHandlerAsWritten` | server/go/main.go:270-280 | As written: a retrieved phone number whose UTF-8 encoding is shorter than 6 bytes panics in the success log; otherwise the corrected handler |
| `GoMain.Server.StatusHandler` | server/go/main.go:354-426 | Empty trimmed ID → 400 INVALID_REQUEST; registry miss → 404 SESSION_NOT_FOUND with no poll; otherwise polls the stored URL and maps the outcome; the store is read only |
| `GoMain.StatusReply` | server/go/main.go:412-425 | A failure is sent as an error response; a forward writes the decoded data with its status |
| `GoMain.ShortPhoneNumberPanics` | server/go/main.go:276-278 | An empty retrieved number drops the connection as written, where the corrected handler answers 200 |
| `ServerGo.SendErrorResponse` | server.go:317-347 | Error body with code, message and the looked-up request ID; in development (case-insensitive) nil details become `{env: development}` |
| `ServerGo.DevelopmentMarkerOnlyFillsEmptyDetails` | server.go:339-344 | Details that exist are sent as they are, in every environment |
| `ServerGo.HandleGlideError` | server.go:288-315 | SDK error → its own status (500 for 0), code, message, SDK-error details in every environment and the request ID looked up in them; other error → 500 UNEXPECTED_ERROR, with `{env: development}` details only in development |
| `ServerGo.PrepareHandler` | server.go:159-211 | The PLMN-defaulted request goes to the SDK; the answer is forwarded iff the strategy is non-empty, data is non-nil and the session key is non-empty, else 500 UNEXPECTED_RESPONSE |
| `ServerGo.BodyMembers` | server.go:219-225 | An object decodes to its members, JSON null to an empty map; any other value fails to decode |
| `ServerGo.Field` | server.go:229-230 | A field read from the map is nil when absent or null |
| `ServerGo.UseCaseField` | server.go:228 | The use case is the string value, or "" for anything else |
| `ServerGo.CredentialPreview` | server.go:234-241 | First 100 characters plus "...[TRUNCATED]" when longer; empty when the credential is not a string |
| `ServerGo.CredentialPreviewIsBounded` | server.go:236-237 | The log never shows more than 100 characters of a credential |
| `ServerGo.ProcessHandler` | server.go:213-286 | Missing use case, session or credential → 400 VALIDATION_ERROR; unknown use case → 400 naming it; otherwise the matching SDK call with session and credential as received |
| `ServerGo.ForwardAnswer` | server.go:278-285 | An SDK result is written with 200; an error goes through the SDK-error mapping |
| `ServerGo.NullBodyFailsValidation` | server.go:220-254 | A JSON null body decodes as an empty map and fails validation |
| `ServerGo.StatusUrl` | server.go:368 | The URL is the fixed prefix followed by the session ID |
| `ServerGo.StatusHandler` | server.go:349-410 | Empty trimmed ID → 400; otherwise the fixed URL is polled and the outcome mapped: transport → 500 STATUS_CHECK_FAILED, decode → 500 DECODE_ERROR, upstream ≥ 400 relayed |
| `ServerGo.ForwardedStatusHasSessionId` | server.go:360-381 | Any relayed body comes from a GET with a non-blank ID that got an upstream answer |
| `SrcController.ResolveBaseUrl` | src/main/java/com/glideidentity/controller/PhoneAuthController.java:27-31 | The base URL is the configured one when non-empty, else "https://api.glideidentity.app" |
| `SrcController.StatusUrl` | src/main/java/com/glideidentity/controller/PhoneAuthController.java:154 | The URL is the base, then "/public/status/", then the ID |
| `SrcController.StatusHeaders` | src/main/java/com/glideidentity/controller/PhoneAuthController.java:157-165 | Accept JSON always; the "developer" header is added iff the dev env is non-null and non-empty |
| `SrcController.StatusCheckFailed` | src/main/java/com/glideidentity/controller/PhoneAuthController.java:185-190 | 500 with "Status check failed" and the message; a null message makes `Map.of` throw |
| `SrcController.StatusReplyOf` | src/main/java/com/glideidentity/controller/PhoneAuthController.java:169-190 | Upstream ≥ 400 → same status and raw body; 200 iff upstream < 400 and the body parses; a transport failure or a body that does not parse → 500 "Status check failed" with that exception's message, or a container 500 when it has none |
| `SrcController.PhoneAuthController.constructor` | src/main/java/com/glideidentity/controller/PhoneAuthController.java:23-37 | The base URL is resolved once and the dev env stored |
| `SrcController.PhoneAuthController.Prepare` | src/main/java/com/glideidentity/controller/PhoneAuthController.java:39-80 | The SDK answer → 200; an exception from the service or the SDK → the shared mapping |
| `SrcController.PhoneAuthController.Process` | src/main/java/com/glideidentity/controller/PhoneAuthController.java:82-121 | The SDK answer → 200; an exception from the service or the SDK → the shared mapping |
| `SrcController.PhoneAuthController.GetStatus` | src/main/java/com/glideidentity/controller/PhoneAuthController.java:145-192 | The reply maps the answer to a GET of the built URL with the built headers |
| `SrcController.PrepareWithoutApiKeyIsInternalError` | src/main/java/com/glideidentity/controller/PhoneAuthController.java:69-79 | An unconfigured service answers prepare with the fixed 500 body outside development |
| `SrcController.ProcessRejectsUnknownUseCase` | src/main/java/com/glideidentity/controller/PhoneAuthController.java:102-109 | An unknown use case at process is 400 VALIDATION_ERROR with "Invalid use_case: " and the value |

## Left out

- The SDK itself: prepare, getPhoneNumber, verifyPhoneNumber, reportInvocation and the aggregator's complete. Their answers are function parameters, so any outcome is allowed.
- `JavaController.PhoneAuthController.Process` and `JavaController.PhoneAuthController.Complete`: the Java server's controller calls `glideService.processCredential(request, feCode)` and `glideService.complete(sessionKey, feCode, aggCode)` (PhoneAuthController.java:135 and :242). Its `GlideService.java` declares neither; it has only the one-argument `processCredential` at line 100. Both calls are function parameters of the handlers, so `JavaController.PhoneAuthController.Process` is not connected to `ServerGlideService.GlideService.ProcessCredential`.
- `UseCaseName.ValueOf`: the SDK's `UseCase` enum is not part of this model. It is assumed to have exactly the constants `GET_PHONE_NUMBER` and `VERIFY_PHONE_NUMBER`. The "throws iff" of `GlideRequests.BuildPrepareRequest` rests on that assumption.
- `MagicalAuth.getBindingCookieName`, `MagicalAuth.parseBindingCookie`, `MagicalAuth.getCompletionPageHtml`, `TypeUtils.getStatusUrl` and `glide.GetStatusURL` are not part of this model. The cookie parser and the status-URL extractor are function parameters. The cookie is described by its session key, its value and its secure flag, not by its serialised text.
- Outbound HTTP and JSON decoding are parameters: an upstream answer, a transport failure, or a parse outcome.
- Concurrency: the locks, `ConcurrentHashMap`, the ticker goroutine and the scheduled task. Each store operation is one atomic step, and the sweep is an ordinary method.
- The clock is the `now` argument in nanoseconds. The model does not check that it is monotonic.
- Bootstrap and configuration (both `JavaServer.java` files, the Go `main` functions, .env loading, CORS, ports, logging). Environment values are parameters.
- The completion page handler, the health endpoints and the DTOs without logic.
- Log output is left out. The previews are modelled only as the strings that would be logged.
- `UseCaseName.UpperChar`: models `toUpperCase` on ASCII letters only. Java's locale-dependent and full-Unicode mappings (such as "ß" to "SS") are not modelled.
- `Text.LowerChar`: models `toLowerCase` and `strings.ToLower` on ASCII letters only. Unicode case mapping is not modelled.
- `Text.Preview`: counts characters. Go's `len(s) > 8` and `s[:8]` count UTF-8 bytes, and Java's `length()` and `substring` count UTF-16 units. The three agree on ASCII text, which session IDs are; a byte cut through a multi-byte character cannot be written as a string of characters. Previews only reach the log.
- `ServerGo.CredentialPreview`: counts 100 characters where server.go:236-237 counts 100 bytes, for the same reason as `Text.Preview`. The two agree on ASCII credentials such as JWTs, and the preview only reaches the log.
- `ProcessRequest.GetSessionKey`: floating-point JSON numbers are not represented, so their `toString` form is not modelled.
- `JavaController.StatusRelay`: the Java HTTP client is assumed to report a status between 0 and 999, the values a three-digit status line can hold. The `requires` of the Java status proxies states this.
- `GoMain.Server.StatusHandler`: the upstream status is assumed to be between 0 and 999, as `net/http` parses a three-digit code ("000" included); every status below 400 is answered 200.
- `SrcController.PhoneAuthController.Prepare` and `SrcController.PhoneAuthController.Process`: the standalone application's controller imports `com.glideapi.exceptions.MagicAuthError` and `com.glideapi...PrepareResponse` (src/.../controller/PhoneAuthController.java:5-6), while its service uses the `com.glideidentity` types of the same names (src/.../service/GlideService.java:4 and 10). As shown, the code does not compile. The model assumes the two name the same SDK types, so the service's SDK error is caught by the controller's `MagicAuthError` branch. If they were distinct classes, that error would fall through to the 500 branch instead.
- `GoMain.Server.PrepareHandler`: server/go/session_store.go:7 imports the Go SDK at its first major version, while server/go/main.go:11 imports `/v2`. The model assumes that `ExtractStatusURL` accepts main.go's prepare response, whose status URL is the function parameter `statusUrlOf`.

The status proxies differ on purpose in the model, as they differ in the code:

- the Java server polls the URL its store holds;
- the standalone Java application polls `base + "/public/status/" + id`;
- the root Go server polls `https://api.glideidentity.app/public/public/status/` + id, with "public" written twice.

## Findings

| source | as written | input that shows it | evidently intended | confidence | as-written member | corrected member |
|---|---|---|---|---|---|---|
| server/java/src/main/java/com/glideidentity/controller/PhoneAuthController.java:199-202 | A failed report is answered with `Map.of("success", false, "error", e.getMessage())`, which throws NullPointerException when the message is null | `reportInvocation` throws an exception with no message for session "session-1" | Answer 200 with `success: false`, whatever the exception | high, not executed | `JavaController.InvokeAsWrittenFailsOnNullMessage` | `JavaController.InvokeNeverFails` |
| server/go/main.go:276-278 | The success log slices `response.PhoneNumber[:6]`, which panics when the number is shorter than 6 bytes | the SDK returns success with phone number "" for use case "GetPhoneNumber" | Write the 200 answer and log a safe prefix | medium, not executed | `GoMain.ShortPhoneNumberPanics` | `GoMain.Server.ProcessHandler` |
