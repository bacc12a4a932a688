# vidgo, modelled in Dafny

vidgo is a Go SDK for video-generation services. A client validates a
generation request, hands it to a provider, and retries transient failures.
It then polls the task until it settles. Kling is the only provider that
really talks to a vendor; Jimeng and Vidu are placeholders. A second layer
relays video tasks for a gateway. A `TaskAdaptor` runs a fixed pipeline
(initialise, validate, build, send, read the reply) over a Kling relay
adaptor. The repository has two such adaptors: one in the `vidgo` package
that calls Kling itself, and one in `adapters/kling` that goes through the
Kling provider.

This project models that decision logic as pure functions over immutable
datatypes:

- the error taxonomy and the client's retryability test, with `%w` chains
  and `errors.Is` (module `Errors`);
- the client's ordered validation, its bounded retry loop and its polling
  loop (module `Client`). Both loops are recursive functions over a script
  of provider replies and context events;
- the three Kling request/response mappings: the provider the client uses
  (`KlingProvider`), the older copy in `adapters/kling.go` (`LegacyKling`),
  and the two relay adaptors (`RootRelay`, `ProviderRelay`). Lemmas in
  `RelayAgreement` and `LegacyKling` state where the copies agree and where
  they differ;
- the relay pipeline (`TaskAdaptor`), the adapter wrapper (`Wrapper`), the
  provider interface (`Providers`) and the two stub providers (`Jimeng`,
  `Vidu`).

Environment inputs and stand-ins:

- Every HTTP exchange is an input (`KlingWire.Exchange`). A relay reply is
  a `Payload`: unreadable, or bytes together with how they parse as JSON.
- JSON decoding follows `encoding/json`'s rules for the struct fields
  involved (module `Json`).
- Clock readings are an integer `now`.
- `strconv.ParseFloat` and `fmt.Sprintf("%.0f", ...)` are function
  parameters.
- A signed JWT is kept as its claims and key.

## Model

| member | source | states |
|---|---|---|
| Errors.IsRetryable | errors.go:46-54 | The vidgo API error, recognised only at the outermost level, is retryable iff its code is at least 500 or exactly 429. Any other error is retryable iff the network-error or rate-limit sentinel appears in its wrap chain. |
| Errors.IsMeansInChain | errors.go:53 | `errors.Is` against a sentinel holds exactly when that sentinel is one of the errors reached by unwrapping. |
| Errors.WrappingHidesApiCode | errors.go:47-53 | A wrapped error is retried only because of a transient sentinel inside it. Wrapping a vidgo API error makes it non-retryable whatever its code. |
| Errors.NonSentinelLeavesNotRetryable | errors.go:46-54 | Validation errors of both packages, the adapters package's API error, context errors and plain errors are never retryable. |
| Errors.WrappedPlainNotRetryable | errors.go:46-54 | A chain of `%w` wrappers ending in a plain error is never retryable. |
| Errors.RetryableExamples | client_test.go:145-162 | API errors 500 and 429 are retryable and 400 is not; a wrapped network-error sentinel is retryable. |
| Errors.ApiErrorText | errors.go:28-33 | The text starts with a bracket exactly when a provider tag is present, and always ends with ": " followed by the message. |
| Errors.ApiTextReadBack | errors.go:28-33 | Without a tag the text starts with "API error ", and the code parses back from the text between that and ": " plus the message. |
| Errors.ApiMessageExample | client_test.go:120-132 | An API error with code 400 and any non-empty provider tag (the test uses "TestProvider") reads "[" + tag + "] API error 400: Bad Request". |
| Errors.ApiMessageUntaggedExample | errors.go:32 | Without a provider tag the text is "API error 400: Bad Request". |
| Errors.ValidationMessageExample | client_test.go:134-142 | A validation error reads "validation error for field 'duration': must be positive". |
| Errors.Chain | errors.go:53 | The unwrap chain is never empty and starts with the error itself. |
| Errors.SentinelText | errors.go:10-18 | Every sentinel has a non-empty text. |
| Errors.SentinelTextsDistinct | errors.go:10-18 | Two sentinels have the same text iff they are the same sentinel. |
| Errors.ValidationErrorText | errors.go:41-43 | The text is the fixed prefix "validation error for field '", then the field, then "': ", then the message, each at its own place, so field and message can be read back. |
| Errors.Message | errors.go:28-43 | The vidgo and adapters API error types read alike (ApiErrorText), as do the two validation error types; a sentinel reads as its non-empty text; a wrapper's text starts with its prefix. |
| Errors.MessageEndsWithRoot | client.go:39 | Wrapping with `%w` only prepends: an error's text is the prefixes of its chain, outermost first, followed by the text of the innermost error. |
| Errors.RootEndsChain | errors.go:53 | The innermost error is the last error unwrapping reaches, and it wraps nothing. |
| Types.NonEmptyString | adapters/kling/kling.go:226-230 | A metadata lookup succeeds exactly when the key is present, holds a string, and that string is non-empty; it then yields that string. |
| Client.Loop | client.go:76-101 | From any attempt whose predecessors all failed retryably, the loop makes at most maxRetries+1 calls. It ends with the first success, the first non-retryable error, the context's cancellation seen before a later attempt, or the last error once the budget is spent. Each outcome is tied to the script entry that produced it. |
| Client.Retry | client.go:76-101 | No call and no result iff maxRetries is negative; otherwise between 1 and maxRetries+1 calls. A success is returned unchanged, and every earlier attempt failed retryably. A returned error is the last attempt's, and it is non-retryable or the budget is spent. Cancellation is only observed before a later attempt. |
| Client.FirstHardErrorStops | client.go:91-94 | A non-retryable first error ends the loop after exactly one call, with that error. |
| Client.RetryExample | client.go:76-101 | Two 503 replies followed by a success give three calls and that success. |
| Client.NoRetryWithoutRetryableError | client.go:76-101 | If no reply in the script is a retryable error, the loop makes at most one call and never reports cancellation; with a non-negative budget it makes exactly one, whose reply is the result or the error. |
| Client.ProvidersNeverRetried | client.go:68-139 | Through the SDK's own providers, CreateGeneration and GetGeneration make at most one provider call whatever the retry budget, because none of their errors is retryable; once validation passes and the budget is non-negative, exactly one call is made and its first reply decides: its value is returned or its error is. |
| Client.ValidateRequest | client.go:207-228 | Checks run in order (nil request, then prompt/image, duration, width, height) and the first failure is reported with its field. When all pass, the result is the provider's own verdict. |
| Client.KlingValidation | client.go:207-228 | With a Kling client, a request passes iff it has a prompt or an image, a positive width and height, an empty or listed model, and a duration of exactly 5 or 10. |
| Client.CreateGeneration | client.go:68-102 | A request that fails validation is refused with that error and zero provider calls. Otherwise the result is the retry loop over the wrapped provider's replies. |
| Client.GetGeneration | client.go:105-139 | An empty task id gives the "task_id" validation error with zero calls. Otherwise the result is the retry loop over the provider's replies. |
| Client.PollInterval | client.go:143-145 | The interval is always positive: the requested one if positive, else 5 seconds. |
| Client.Settle | client.go:147-169 | Polling continues exactly while polls return queued or processing tasks. The first other turn ends it with the context error, the poll's error, or a settled result that is neither queued nor processing. |
| Client.WaitForCompletion | client.go:142-170 | One GetGeneration per tick. A settled result is never queued or processing and is exactly what the last tick's call returned. Cancellation stops polling with the context error. |
| Client.WaitRunsWhileInProgress | client.go:158-166 | Every turn before the deciding one was a tick whose GetGeneration call returned a queued or processing task; polling is still going on iff every turn was such a tick. |
| Client.WaitLastTurnDecides | client.go:158-166 | For any tick `i`: when polling ended at turn `i`, that tick's GetGeneration outcome decides: a call error stops with that error, a cancellation with the context error, a nil result gives the nil-result case, and a result that is neither queued nor processing is the settled result. |
| Client.SettleLastPoll | client.go:158-166 | When the polling loop's deciding turn was a poll, the loop ends with that poll's verdict, and a returned result is then neither queued nor processing. |
| Client.WaitEmptyTaskId | client.go:106-108 | Waiting on an empty task id stops at the first tick with the "task_id" validation error. |
| Client.AdapterConfig | client.go:185-192 | Every configuration field is copied unchanged into the adapters package's type. |
| Client.DefaultClientConfig | client.go:27-34 | The default configuration has a 30-second timeout, three retries, a one-second retry delay and debugging off. |
| Client.CreateProvider | client.go:183-204 | Succeeds iff the type is "kling" and the key splits into an access/secret pair. Every other type, including "jimeng" and "vidu", gives the unsupported-provider sentinel. A Kling failure is the constructor's error. |
| Client.NewClient | client.go:37-52 | Fails iff provider creation fails, with that error wrapped. An absent client configuration becomes the default one. |
| Client.DeclaredProvidersUnsupported | types.go:94-96 | Asking for the declared Jimeng or Vidu provider fails, and `errors.Is` still finds the unsupported-provider sentinel through the wrapping. |
| Client.ClientIsKling | client.go:173-180 | A constructed client's provider is named "Kling" and lists the Kling models. |
| Wrapper.ToAdapterRequest | adapter_wrapper.go:21-34 | Every request field is copied unchanged. |
| Wrapper.RequestCopyRoundTrip | adapter_wrapper.go:21-34 | Copying a request between the two packages' types loses nothing, in either direction. |
| Wrapper.FromAdapterResult | adapter_wrapper.go:54-77 | Copies task id, status, URL and format. Metadata is present iff the source has it, with all six fields equal; the error is present iff the source has it, with code and message equal. |
| Wrapper.ResultCopyRoundTrip | adapter_wrapper.go:54-77 | Copying a task result and copying it back gives the original. |
| Wrapper.ValidateRequest | adapter_wrapper.go:88-106 | The verdict is the wrapped provider's, on the unchanged request. |
| Wrapper.CreateGeneration | adapter_wrapper.go:20-45 | Fails iff the provider fails, with the same error unwrapped. A success keeps task id and status. |
| Wrapper.GetGeneration | adapter_wrapper.go:48-80 | Fails iff the provider fails, with the same error. A success is the provider's result, copied without loss. |
| Wrapper.WrappedErrorsNeverRetryable | adapter_wrapper.go:36-39 | No error that comes through the wrapper is retryable. |
| Providers.Name | adapters/kling.go:126-133 | Each implementation has its own name: "Kling", "Jimeng" or "Vidu". |
| Providers.ModelsDisjoint | adapters/jimeng/jimeng.go:32-34 | No model name is listed by two differently named providers. |
| Providers.ValidateRequest | adapters/kling.go:126-133 | Only Kling rejects anything: an unlisted model or a duration other than 5 or 10. |
| Providers.CreateGeneration | adapters/kling.go:126-133 | Only Kling, given a reply with code 0, succeeds; the result is the vendor task id, queued. |
| Providers.GetGeneration | adapters/kling.go:126-133 | Only Kling, given a reply with code 0, succeeds; the result is the converted task result. |
| Providers.ErrorsNeverRetryable | adapters/kling/kling.go:160-214 | No provider error is retryable. Kling's are plain, or wrap a plain transport or decoding error; the stubs' are plain. |
| Jimeng.New | adapters/jimeng/jimeng.go:16-24 | Fails iff the configuration is missing; otherwise it is kept as given. |
| Jimeng.SupportedModels | adapters/jimeng/jimeng.go:31-34 | The list is exactly "jimeng-v1" then "jimeng-v2". |
| Jimeng.ValidateRequest | adapters/jimeng/jimeng.go:37-40 | Every request is accepted. |
| Jimeng.CreateGeneration | adapters/jimeng/jimeng.go:43-46 | Always fails with a plain error. |
| Jimeng.GetGeneration | adapters/jimeng/jimeng.go:49-52 | Always fails with a plain error. |
| Jimeng.CallsNeverSucceed | adapters/jimeng/jimeng.go:43-52 | Both calls give the same "not yet implemented" error whatever the input, and it is not retryable. |
| Vidu.New | adapters/vidu/vidu.go:16-24 | Fails iff the configuration is missing; otherwise it is kept as given. |
| Vidu.SupportedModels | adapters/vidu/vidu.go:31-34 | The list is exactly "vidu-v1" then "vidu-v2". |
| Vidu.ValidateRequest | adapters/vidu/vidu.go:37-40 | Every request is accepted. |
| Vidu.CreateGeneration | adapters/vidu/vidu.go:43-46 | Always fails with a plain error. |
| Vidu.GetGeneration | adapters/vidu/vidu.go:49-52 | Always fails with a plain error. |
| Vidu.CallsNeverSucceed | adapters/vidu/vidu.go:43-52 | Both calls give the same "not yet implemented" error whatever the input, and it is not retryable. |
| KlingWire.SplitApiKey | adapters/kling/kling.go:99-106 | A key gives an access/secret pair iff it contains exactly one comma. The halves are the text before and after it, trimmed of white space; either may be empty. |
| KlingWire.SplitApiKeyOfPair | adapters/kling/kling.go:99-106 | Two comma-free, space-free halves joined by a comma split back into exactly those halves. |
| KlingWire.SplitApiKeyExample | adapters/kling/kling.go:99-106 | "ak,sk" splits into "ak" and "sk". |
| KlingWire.SplitApiKeyRejectsBare | adapters/kling/kling.go:103-106 | A key with no comma, "ak", is rejected. |
| KlingWire.SplitApiKeyRejectsTriple | adapters/kling/kling.go:103-106 | A key with two commas, "a,b,c", is rejected. |
| Text.Split | adapters/kling/kling.go:103-104 | Splitting gives one more part than there are separators, no part contains the separator, and joining the parts with it gives the text back. |
| Text.TrimSpace | adapters/kling/kling.go:122-123 | The trimmed text is no longer than the input and neither starts nor ends with white space. |
| Text.TrimSpaceCutsOnlySpace | adapters/kling/kling.go:122-123 | The trimmed half is a slice of the raw half with nothing but white space before and after it. |
| KlingWire.KlingClaims | adapters/kling/kling.go:307-321 | The token is issued by the access key, valid from 5 seconds before now until 30 minutes after. |
| KlingWire.SignedToken | adapters/kling/kling.go:307-321 | Signing cannot fail; the credential carries the access key as issuer and the secret as key. |
| KlingWire.CallHeaders | adapters/kling/kling.go:324-349 | Every vendor call carries exactly three headers: Content-Type "application/json", the bearer Authorization, and User-Agent "vidgo-sdk/1.0". |
| KlingWire.ExchangeError | adapters/kling/kling.go:324-349 | A failed exchange is a standard-library error wrapped once with `%w`. |
| KlingWire.ExchangeErrorNotRetryable | adapters/kling/kling.go:343-346 | No exchange failure is ever retryable. |
| KlingProvider.New | adapters/kling/kling.go:98-125 | A missing configuration is "invalid configuration". Otherwise it succeeds iff the key has exactly one comma, keeping the trimmed halves. An empty base URL becomes https://api.klingai.com and a zero timeout becomes 30 seconds. |
| KlingProvider.SupportedModels | adapters/kling/kling.go:91-95 | Three models, among them the default "kling-v2-master", and exactly the listed ones. |
| KlingProvider.ValidateRequest | adapters/kling/kling.go:138-157 | Accepts iff the model is empty or listed and the duration is exactly 5 or 10. The model check comes first, each failure with its own message. |
| KlingProvider.AspectRatio | adapters/kling/kling.go:254-265 | Always one of three buckets. With a zero height the float division gives +Inf (landscape), -Inf (portrait) or NaN (square) according to the sign of the width. |
| KlingProvider.AspectRatioBuckets | adapters/kling/kling.go:254-265 | For a positive height: landscape iff 2w > 3h, portrait iff 10w < 7h, square in between. |
| KlingProvider.AspectRatioExamples | adapters/kling/kling.go:254-265 | 1920x1080 is 16:9, 1080x1920 is 9:16, and 1024x1024 and 0x0 are 1:1. |
| KlingProvider.ConvertRequest | adapters/kling/kling.go:217-251 | Copies prompt and image. The mode is the non-empty string metadata "mode", else "std". Duration is "10" only for exactly 10, else "5". Model and model name are equal: the request's, or "kling-v2-master" when empty. The guidance scale is 0.5. |
| KlingProvider.ValidRequestConverts | adapters/kling/kling.go:138-157 | For every accepted request, the converted duration names exactly the requested seconds and the model is a supported one. |
| KlingProvider.ConvertStatus | adapters/kling/kling.go:291-304 | Always one of the four statuses: succeeded iff "succeed", failed iff "failed", processing iff "processing", and queued for everything else. |
| KlingProvider.StatusRoundTrip | adapters/kling/kling.go:291-304 | Each of the four statuses survives a trip through Kling's vocabulary. |
| KlingProvider.ConvertTaskResult | adapters/kling/kling.go:268-288 | Id and converted status are kept, with no error. Only the first video is used: it gives the URL and the mp4 format. Metadata is present iff its duration parses. Without videos the URL and format are empty. |
| KlingProvider.FirstVideo | adapters/kling/kling.go:274-275 | There is a first video iff the result lists at least one video, and it is the one listed first. |
| KlingProvider.Token | adapters/kling/kling.go:307-321 | The credential is signed with the configured keys and is valid at the time of the call. |
| KlingProvider.CreateCall | adapters/kling/kling.go:160-188 | A POST to the base URL plus /v1/videos/image2video, carrying the converted request and a bearer token. |
| KlingProvider.QueryCall | adapters/kling/kling.go:191-214 | A bodiless GET on the task under the same path, with a bearer token. |
| KlingProvider.VendorError | adapters/kling/kling.go:181-183 | A non-zero vendor code becomes a plain error with the untagged API-error text. |
| KlingProvider.CreateGeneration | adapters/kling/kling.go:160-188 | Succeeds iff the vendor replied with code 0, giving the task id, queued. A failed exchange gives its wrapped error; a non-zero code gives the plain API-error text. |
| KlingProvider.GetGeneration | adapters/kling/kling.go:191-214 | Succeeds iff the vendor replied with code 0, giving the converted task result. Errors are as for creation. |
| KlingProvider.ProviderErrorsNotRetryable | adapters/kling/kling.go:176-183 | Neither exchange failures nor vendor errors are ever retryable. |
| LegacyKling.New | adapters/kling.go:205-232 | The same acceptance as the newer provider, with https://api.kuaishou.com as the default base URL. |
| LegacyKling.NewAgrees | adapters/kling.go:205-232 | Both constructors accept and reject the same configurations; they differ only in the fallback base URL. |
| LegacyKling.ValidateRequest | adapters/kling.go:245-270 | The same checks in the same order. An unlisted model is a validation error on field "model"; a bad duration is one on field "duration". |
| LegacyKling.ValidateAgrees | adapters/kling.go:245-270 | Both providers reject the same requests; the older message is the newer one prefixed with the field. |
| LegacyKling.ConvertRequest | adapters/kling.go:336-364 | The mode is "img2video" iff an image is given, else "txt2video". Duration, aspect ratio and default model are as in the newer provider. |
| LegacyKling.ConvertAgrees | adapters/kling.go:336-364 | Both conversions agree on prompt, image, duration, aspect ratio and model. |
| LegacyKling.Token | adapters/kling.go:420-423 | The credential is the literal access key, a colon, and the secret key. |
| LegacyKling.CreateCall | adapters/kling.go:273-304 | A POST to the base URL plus /api/open/v1/video/generation, with the converted body and the literal credential. |
| LegacyKling.QueryCall | adapters/kling.go:307-333 | A bodiless GET on the task under the same path. |
| LegacyKling.CreateGeneration | adapters/kling.go:273-304 | A non-zero vendor code is the adapters package's API error tagged "Kling"; code 0 gives the task id, queued. |
| LegacyKling.GetGeneration | adapters/kling.go:307-333 | A non-zero vendor code is the tagged API error; code 0 gives the converted task result. |
| LegacyKling.CallsAgree | adapters/kling.go:273-304 | Given the same exchange both providers succeed together with the same answer. On a vendor refusal the older message is the newer one tagged "[Kling] ", and neither error is retryable. |
| RelayTypes.LocalError | task_adaptor.go:56-65 | A locally raised adaptor error carries the given status, code and message. |
| RelayTypes.DecodeSubmit | task_adaptor.go:68-76 | A malformed body fills nothing, with a syntax issue. A JSON `null` gives the zero request with no issue. A clean decode needs an object or null. For an object, each of the seven fields is read from its JSON member, and the decode is clean iff every member has its field's JSON type. |
| RelayTypes.KlingErrorCode | kling_adaptor.go:250 | The code is "kling_error_" followed by text that parses back to the Kling code. |
| RelayTypes.EncodeSubmit | adapters/kling/kling_adaptor.go:40-48 | The prompt is always written. Every `omitempty` field is written iff it is not its zero value. |
| RelayTypes.EncodedMembers | adapters/kling/kling_adaptor.go:40-48 | An omitted field reads back as null. |
| RelayTypes.SubmitRoundTrip | adapters/kling/kling_adaptor.go:196-217 | Encoding a submit request and decoding the bytes gives the same request, with no error. |
| RelayTypes.Metadata | adapters/kling/kling_adaptor.go:135 | The provider's metadata has the same keys, and strings stay the same strings. |
| RelayTypes.DecodeEnvelope | task_adaptor.go:79-83 | A malformed body fills nothing and null gives the empty envelope. For an object, code, message and data are each read from their string member, and the decode is clean iff all three members are strings or absent or null. |
| RelayTypes.EnvelopeRoundTrip | task_adaptor.go:79-83 | The JSON object of any envelope decodes back to that envelope without error. |
| RelayTypes.EnvelopeSuccessNeedsStringCode | task_adaptor.go:85-87 | A decoded envelope is a success only when the body's code member is the string "success". |
| RootRelay.Init | kling_adaptor.go:32-47 | An empty base URL becomes https://api.klingai.com and is written back into the info. The keys are taken from a key with exactly one comma; any other key leaves the previous keys. |
| RootRelay.InitIdempotent | kling_adaptor.go:32-47 | Initialising again with the resulting info changes nothing. |
| RootRelay.ModelList | kling_adaptor.go:300-304 | The same three models as the Kling provider. |
| RootRelay.ActionValidate | kling_adaptor.go:312-337 | Passes iff the action is "generate", the prompt is non-empty and any model is listed. The checks run in that order, each with its own message. |
| Text.ToLower | kling_adaptor.go:51 | The length is kept, each character is lower-cased on its own, and no ASCII capital letter is left. |
| RootRelay.ValidateRequestAndSetAction | kling_adaptor.go:50-75 | Passes iff the body decodes fully and passes the checks under the lower-cased action, and the request is returned unchanged. Every refusal is a local 400 "invalid_request". A decode failure's message is "Failed to parse request: " plus the decode issue. A check failure's message is the check's own message. |
| RootRelay.ActionCaseInsensitive | kling_adaptor.go:51 | The action's case never changes the verdict. |
| RootRelay.BuildRequestURL | kling_adaptor.go:78-81 | The generation path under the recorded base URL. |
| RootRelay.TokenWithKeys | kling_adaptor.go:358-376 | A token exists iff both keys are non-empty. |
| RootRelay.TokenWithKey | kling_adaptor.go:345-355 | A token exists iff the key has exactly one comma and both trimmed halves are non-empty. The token is issued by the first half and keyed with the second. |
| RootRelay.BearerOrKey | kling_adaptor.go:84-92 | The bearer is the token when there is one, else the raw API key. |
| RootRelay.BuildRequestHeader | kling_adaptor.go:84-98 | Exactly four headers: Content-Type and Accept are "application/json", User-Agent is "vidgo-sdk/1.0", and Authorization is the token or, failing that, the raw key. |
| RootRelay.SizeAspectRatio | kling_adaptor.go:163-174 | Landscape iff the size is 1280x720 or 1920x1080, portrait iff 720x1280 or 1080x1920, and square for every other size. |
| RootRelay.ConvertRequest | kling_adaptor.go:125-160 | Copies prompt, image and model. The mode is the non-empty string metadata "mode", else "std". Duration is "10" only for 10. The ratio comes from the size name. An empty model stays empty while the model name becomes "kling-v1". Guidance scale is 0.5. |
| RootRelay.ModeFieldIgnored | kling_adaptor.go:125-160 | The request's own mode field never influences the converted request. |
| RootRelay.GenerationCall | kling_adaptor.go:113-122 | The POST goes to the built URL with the built headers and the converted body, with a 30-second timeout. |
| RootRelay.DecodeKling | kling_adaptor.go:192-199 | A malformed body fills nothing and null gives the zero reply. For an object, the code is read as a 64-bit integer, the message as a string and the task id from the data object, and the decode is clean iff each has its JSON type (data an object or null). |
| RootRelay.KlingRoundTrip | kling_adaptor.go:192-199 | The JSON object of any Kling reply whose code fits in 64 bits decodes back to that reply without error. |
| RootRelay.DoResponse | kling_adaptor.go:201-258 | An unreadable body is a local 500 "read_response_body_failed". A clean Kling decode with code 0 is accepted with its task id, even an empty one. Any other body that fails the generic envelope decode is a local 500 "unmarshal_response_body_failed" carrying the body and the decoder error; a clean envelope with a non-success code is rejected with the HTTP status, its code and message; a clean success envelope is accepted with its data. |
| RootRelay.EnvelopeSuccessKlingCodeZero | kling_adaptor.go:228-250 | When the generic envelope decodes cleanly with a success code, the Kling decoding of the same body has code 0. |
| RootRelay.KlingErrorBranchDead | kling_adaptor.go:236-255 | A non-local rejection always carries the envelope's own non-success code, so the `kling_error_<code>` branch is never taken. |
| RootRelay.VendorErrorBecomesDecodeFailure | kling_adaptor.go:213-234 | A reply whose code is a non-zero number becomes a local 500 "unmarshal_response_body_failed". |
| RootRelay.DoResponseIntended | kling_adaptor.go:201-258 | A cleanly decoded Kling reply with a non-zero code is reported as that Kling error with the HTTP status; everything else is as written. |
| RootRelay.IntendedKeepsVendorError | kling_adaptor.go:246-255 | With the intended order, a reply with code c and message m is the remote error "kling_error_c" carrying m. |
| RootRelay.FetchTask | kling_adaptor.go:261-297 | A bodiless GET with a 15-second deadline on the task under the given or default base URL. It carries exactly Accept "application/json", User-Agent "vidgo-sdk/1.0" and an Authorization that is a token from the key, or else the key itself. |
| ProviderRelay.InitConfig | adapters/kling/kling_adaptor.go:73-94 | The provider's configuration carries the API key and the info's base URL, or the default. |
| ProviderRelay.Init | adapters/kling/kling_adaptor.go:73-94 | Records the channel type. A successful construction replaces the provider; a failed one keeps the previous provider, if any. |
| ProviderRelay.InitProvider | adapters/kling/kling_adaptor.go:73-94 | A provider created by Init uses the info's or the default base URL, the default timeout and the split keys. |
| ProviderRelay.SizeDimensions | adapters/kling/kling_adaptor.go:139-154 | Known frame sizes have positive dimensions. |
| ProviderRelay.ConvertToGenerationRequest | adapters/kling/kling_adaptor.go:129-164 | Prompt, model, duration and metadata are carried over. Width and height come from a known size name and stay 0 otherwise. A non-empty string "image" metadata entry replaces the image. |
| ProviderRelay.MetadataLookupAgrees | adapters/kling/kling_adaptor.go:135 | The provider answers metadata string lookups exactly as the relayed JSON does. |
| ProviderRelay.ValidateRequestAndSetAction | adapters/kling/kling_adaptor.go:97-126 | Passes iff the body decodes and, when there is a provider, the converted request passes the provider's validation. Refusals are a local 400 "invalid_request". A decode failure's message is "Failed to parse request: " plus the decode issue. A validation failure carries the provider's message. |
| ProviderRelay.ActionIgnored | adapters/kling/kling_adaptor.go:97-126 | The action never changes the verdict. |
| ProviderRelay.ValidationViaProvider | adapters/kling/kling_adaptor.go:97-126 | With a provider, a decoded request passes iff its model is empty or listed and its duration is 5 or 10. |
| ProviderRelay.BuildRequestURL | adapters/kling/kling_adaptor.go:167-176 | The generation path under the info's base URL or the default. |
| ProviderRelay.BuildRequestHeader | adapters/kling/kling_adaptor.go:179-193 | Exactly four headers: Content-Type and Accept are "application/json", User-Agent is "vidgo-sdk/1.0", and Authorization is the provider's token, or the raw API key when there is no provider. |
| ProviderRelay.BuildRequestBody | adapters/kling/kling_adaptor.go:196-204 | The body is the relayed request re-encoded. |
| ProviderRelay.Ack | adapters/kling/kling_adaptor.go:227-234 | The synthesised acknowledgement always has code 0. |
| ProviderRelay.DoRequest | adapters/kling/kling_adaptor.go:207-250 | Without a provider: "provider not initialized". A body that does not decode, and a provider failure, are wrapped with `%w`. A success is a 200 acknowledgement with the task id and status. |
| ProviderRelay.DoRequestSeesBuiltRequest | adapters/kling/kling_adaptor.go:196-224 | The body that BuildRequestBody produces decodes to its request, so the provider receives exactly the converted request. |
| ProviderRelay.DecodeVideos | adapters/kling/kling_adaptor.go:253-262 | Element by element: the same length, each element decoded on its own, and clean iff every element is. |
| ProviderRelay.DecodeReplyData | adapters/kling/kling_adaptor.go:265-269 | The task id and status are read from their string members and the videos from the task result's video array, and the decode is clean iff data and task result are objects or null and every member has its JSON type. |
| ProviderRelay.DecodeResponse | adapters/kling/kling_adaptor.go:272-277 | A malformed body fills nothing and null gives the zero reply. For an object, code, message, data and url are each read from their member, and the decode is clean iff every member has its JSON type. |
| ProviderRelay.DoResponse | adapters/kling/kling_adaptor.go:280-337 | An unreadable body is a local 500. A clean Kling decode with code 0 and a non-empty task id is accepted with that id. Every other body, an empty-id code-0 reply included, goes to the generic envelope: a failed decode is a local 500 "unmarshal_response_body_failed" with the decoder error, a non-success code is rejected with the HTTP status, code and message, and a success code is accepted with the envelope's data. |
| ProviderRelay.EnvelopeSuccessResponseCodeZero | adapters/kling/kling_adaptor.go:303-337 | When the generic envelope decodes cleanly with a success code, the `Response` decoding of the same body has code 0. |
| ProviderRelay.AckReadBack | adapters/kling/kling_adaptor.go:280-337 | The adaptor's own acknowledgement is accepted iff its task id is non-empty; an empty id gives a local 500 "unmarshal_response_body_failed". |
| ProviderRelay.EncodeResponse | adapters/kling/kling_adaptor.go:272-277 | The encoded reply always carries its code. |
| ProviderRelay.VideosRoundTrip | adapters/kling/kling_adaptor.go:253-257 | Encoding a list of videos and decoding it gives the same list, with no error. |
| ProviderRelay.ReplyDataRoundTrip | adapters/kling/kling_adaptor.go:260-269 | The reply's data, encoded with its `omitempty` fields and decoded, comes back unchanged. |
| ProviderRelay.ResponseRoundTrip | adapters/kling/kling_adaptor.go:401 | Every synthesised reply decodes back to itself without error. |
| ProviderRelay.PendingWord | adapters/kling/kling_adaptor.go:380-389 | "processing" iff processing, "failed" iff failed, and "submitted" for every other status. |
| ProviderRelay.StatusReply | adapters/kling/kling_adaptor.go:354-399 | A succeeded task with a URL gives one video with the task id, the URL, and the rounded metadata duration or "5". Anything else gives only the id and the pending word. |
| ProviderRelay.FetchTask | adapters/kling/kling_adaptor.go:340-415 | Without a provider: "provider not initialized". A provider error is wrapped. A result becomes a 200 reply whose finished status word is "succeeded". |
| ProviderRelay.FetchTaskLosesSuccess | adapters/kling/kling_adaptor.go:361 | A finished task, re-encoded, is read by Kling's status mapping as queued. |
| ProviderRelay.FetchTaskIntended | adapters/kling/kling_adaptor.go:340-415 | As written, but a finished task uses Kling's own word for success. |
| ProviderRelay.IntendedStatusRoundTrip | adapters/kling/kling_adaptor.go:354-399 | With the intended word, the reply decodes cleanly and maps back to the provider's status. The exception is a succeeded task without a URL, which is reported as queued. |
| RelayAgreement.SizeAgreement | kling_adaptor.go:163-174 | For every size name, the direct adaptor's ratio table equals the provider's buckets applied to the other adaptor's width and height. |
| RelayAgreement.ModelListsAgree | kling_adaptor.go:300-304 | Both relay adaptors list the provider's three models. |
| RelayAgreement.AcceptanceAgrees | adapters/kling/kling_adaptor.go:295-300 | A reply the provider-backed adaptor accepts on the Kling path is accepted by the direct adaptor with the same task id and bytes. |
| RelayAgreement.EmptyTaskIdDiffers | kling_adaptor.go:214-219 | An acknowledgement with an empty task id is accepted by the direct adaptor and refused by the provider-backed one. |
| TaskAdaptor.NewWithVendor | task_adaptor.go:95-109 | The vendor string is recorded, and the implementation is always a fresh Kling adaptor. |
| TaskAdaptor.New | task_adaptor.go:90-92 | The vendor is "kling" and an implementation exists. |
| TaskAdaptor.VendorIrrelevant | task_adaptor.go:95-109 | Every vendor string yields the same implementation. |
| TaskAdaptor.EnsureImpl | task_adaptor.go:259-268 | An implementation is created only when missing; an existing one is kept. |
| TaskAdaptor.EnsureImplIdempotent | task_adaptor.go:259-268 | Ensuring twice is ensuring once. |
| TaskAdaptor.Init | task_adaptor.go:200-211 | Ensures an implementation and initialises it; the info comes back with its base URL filled in. |
| TaskAdaptor.ProcessVideoGeneration | task_adaptor.go:114-176 | Phases run in order. The caller's info comes back as `Init` left it, with the base URL filled in. A refusal is returned unchanged and nothing is sent. A transport failure is a local 500 "request_failed". A response gives exactly the adaptor's DoResponse. Every local code is one of four known codes. |
| TaskAdaptor.SentIffValid | task_adaptor.go:114-176 | A request is sent iff the body decodes and passes the checks under the lower-cased action. It then carries the converted request to the info's base URL or the default. |
| TaskAdaptor.ProcessTaskFetch | task_adaptor.go:179-195 | Initialises, then fetches the task under the filled-in base URL with the info's API key. The caller's info comes back with that base URL written in: the default when it was empty. |
| TaskAdaptor.FetchAgainSame | task_adaptor.go:179-195 | The written-back base URL sticks: fetching again with the adaptor and info a fetch left behind sends the same GET and changes nothing. |
| TaskAdaptor.ActionValidate | task_adaptor.go:271-284 | Valid iff the action is "generate" and the prompt is non-empty. Any other action is "invalid_action", an empty prompt is "prompt_empty", and an empty model becomes "kling-v1". |
| TaskAdaptor.ActionValidateAcceptsMore | task_adaptor.go:271-284 | Every request the direct Kling adaptor's check accepts is valid here with a non-empty model ("kling-v1" when none was given), while a "generate" request with a prompt and model "sora" is valid here and refused there. |

## Left out

- HTTP transport. `makeRequest`, `http.Client` and the relay's real
  `DoRequest` are not modelled: exchanges and replies are inputs. Reading
  a response body is modelled only as readable or not.
- JSON at the byte level. A document is a value tree or a syntax error.
  The standard library's exact mismatch wording is replaced by a text
  naming the field. Case-insensitive key matching, duplicate keys, and
  document-order (rather than field-order) reporting of several type
  errors are not modelled. A fractional number is rejected for an
  integer field like any non-integer.
- HS256 signing. A token is its claims and key; the signature bytes are
  not computed. The JWT-failure branches of the Kling provider cannot
  occur, because a byte-slice key is always accepted, so they are absent.
- Marshal failures of the request and reply structs cannot occur and are
  absent. For the Kling relay adaptor, `build_url_failed` and
  `build_body_failed` in the pipeline never arise.
- Time. Timeouts, `RetryDelay`, tickers and `select` races are not
  modelled. Cancellation is a script event observed before a retry or at
  a polling wakeup; only the constant durations appear.
- `strconv.ParseFloat` and `%.0f` formatting are parameters. `strings.ToLower`
  is modelled on ASCII letters only.
- The client's `Debug` logging, examples/main.go, and provider.go
  (`NewClientWithProvider`, the `Provider` interface declaration) are not
  part of this model.
- `createProvider` with a nil configuration dereferences it and panics, so
  the configuration is not optional here.
- `GetProviderName`, `GetSupportedModels`, `GetChannelName`, `Name`
  delegation and the `TaskAdaptor` delegate methods simply forward; they
  appear only through the members that use them.
- The dead `failed to marshal response` branch of the provider-backed
  relay's `DoRequest` and `FetchTask`, since marshalling maps of strings
  and numbers cannot fail. A synthesised reply is kept as its JSON value,
  not as bytes.
- Client.WaitForCompletion: polling forever is modelled as the wakeups
  running out (`StillPolling`), because a recursive function over a finite
  script cannot poll forever.
- KlingProvider.AspectRatio: the ratio is an exact real quotient, not a
  float64 one. Go's rounding of large integers to float64 and of the
  literal 0.7 could move a ratio across a bucket boundary only for widths
  or heights beyond about 2^51, which this model does not reproduce.
- RelayTypes.AnyMapField: any JSON number is accepted in the metadata
  map, including ones such as 1e400 that Go's decoding into `interface{}`
  rejects as out of float64 range.
- The `fmt.Printf` warning that the direct relay adaptor's `DoResponse`
  prints before reporting an unmarshal failure (kling_adaptor.go:226) is
  output only and is not modelled.
- RootRelay.FetchTask: the `http.NewRequest` failure of the direct relay
  adaptor's `FetchTask` (kling_adaptor.go:269-272) is not modelled; a GET
  with a nil body fails there only on an unparsable URL, and the model
  always yields the request.
- Client.Retry: the wait between attempts takes no time, and cancellation
  is only seen before the second and later attempts.

## Findings

| source | as written | input that shows it | evidently intended | confidence | as-written member | corrected member |
|---|---|---|---|---|---|---|
| kling_adaptor.go:201-258 | A reply that is not a Kling success is decoded as the generic string-coded envelope before the Kling error code is checked. | A vendor error body `{"code": 1001, "message": "bad"}`: the numeric code does not decode into the envelope's string field, so it is a local 500 "unmarshal_response_body_failed" and the `kling_error_1001` branch is dead. | Report a cleanly decoded Kling reply with a non-zero code as `kling_error_<code>` with the HTTP status. | medium, not executed | RootRelay.DoResponse, shown by RootRelay.VendorErrorBecomesDecodeFailure and RootRelay.KlingErrorBranchDead | RootRelay.DoResponseIntended, proved by RootRelay.IntendedKeepsVendorError |
| adapters/kling/kling_adaptor.go:361 | A finished task is re-encoded with the status word "succeeded". | Any succeeded task with a URL: Kling's vocabulary (adapters/kling/kling.go:291-304) spells success "succeed", so reading the reply back gives queued. | Use Kling's own word, "succeed", so that the status survives the round trip. | medium, not executed | ProviderRelay.FetchTask, shown by ProviderRelay.FetchTaskLosesSuccess | ProviderRelay.FetchTaskIntended, proved by ProviderRelay.IntendedStatusRoundTrip |
