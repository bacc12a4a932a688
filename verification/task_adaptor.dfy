/** The vendor-neutral relay front end (task_adaptor.go): a `TaskAdaptor`
    that always delegates to the `vidgo` package's Kling relay adaptor and
    runs its phases in order, stopping at the first failure. */
module TaskAdaptor {
  import opened Options
  import opened Json
  import opened KlingWire
  import opened RelayTypes
  import Text
  import RootRelay

  /** `TaskAdaptor`: the vendor name and the implementation, once created. */
  datatype TaskAdaptor = TaskAdaptor(vendor: string, impl: Option<RootRelay.Adaptor>)

  /** `NewTaskAdaptorWithVendor`: whatever the vendor, the implementation is
      a fresh Kling adaptor; the vendor string is recorded as given. */
  function NewWithVendor(vendor: string): (a: TaskAdaptor)
    ensures a.vendor == vendor && a.impl == Some(RootRelay.Fresh())
  {
    match vendor
    case "kling" => TaskAdaptor(vendor, Some(RootRelay.Fresh()))
    case _ => TaskAdaptor(vendor, Some(RootRelay.Fresh()))
  }

  /** `NewTaskAdaptor`: the Kling vendor. */
  function New(): (a: TaskAdaptor)
    ensures a.vendor == "kling" && a.impl.Some?
  {
    NewWithVendor("kling")
  }

  /** Every vendor string gives the same implementation. */
  lemma VendorIrrelevant(v: string, w: string)
    ensures NewWithVendor(v).impl == NewWithVendor(w).impl
  {
  }

  /** `ensureImpl`: creates a fresh Kling adaptor only when there is none. */
  function EnsureImpl(a: TaskAdaptor): (r: TaskAdaptor)
    ensures r.vendor == a.vendor && r.impl.Some?
    ensures a.impl.Some? ==> r == a
    ensures a.impl.None? ==> r.impl == Some(RootRelay.Fresh())
  {
    if a.impl.Some? then a
    else if a.vendor == "kling" then a.(impl := Some(RootRelay.Fresh()))
    else a.(impl := Some(RootRelay.Fresh()))
  }

  /** Ensuring twice is ensuring once. */
  lemma EnsureImplIdempotent(a: TaskAdaptor)
    ensures EnsureImpl(EnsureImpl(a)) == EnsureImpl(a)
  {
  }

  /** `Init`: ensures an implementation and initialises it; the relay info
      comes back with its base URL filled in. */
  function Init(a: TaskAdaptor, info: RelayInfo): (r: (TaskAdaptor, RelayInfo))
    ensures r.0.vendor == a.vendor && r.0.impl.Some?
    ensures var once := RootRelay.Init(EnsureImpl(a).impl.value, info);
      r.0.impl == Some(once.adaptor) && r.1 == once.info
  {
    var once := RootRelay.Init(EnsureImpl(a).impl.value, info);
    (a.(impl := Some(once.adaptor)), once.info)
  }

  /** What the HTTP client returned for the generation call: a transport
      error, or a response. */
  datatype Transport = Failed(reason: string) | Response(statusCode: int, body: Payload)

  /** The outcome of `ProcessVideoGeneration`: the adaptor afterwards, the
      caller's relay info afterwards (`Init` writes the default base URL
      into it), the POST it sent (if it got that far) and the task id or
      error. */
  datatype Generation = Generation(adaptor: TaskAdaptor, info: RelayInfo,
                                   sent: Option<Outbound<RootRelay.KP.KlingRequest>>, outcome: Outcome)

  /** The error codes `ProcessVideoGeneration` can raise locally. */
  predicate LocalCode(code: string) {
    code == "invalid_request" || code == "request_failed"
    || code == "read_response_body_failed" || code == "unmarshal_response_body_failed"
  }

  /** `ProcessVideoGeneration`: initialise; validate (a refusal is returned
      unchanged and nothing is sent); build the URL and the body (neither
      can fail for the Kling adaptor, so `build_url_failed` and
      `build_body_failed` never arise); send, where a transport error is a
      local 500 "request_failed"; and hand the response to `DoResponse`.
      `now` is the clock reading the token is made with. */
  function ProcessVideoGeneration(a: TaskAdaptor, info: RelayInfo, body: Doc, now: int,
                                  transport: Transport): (g: Generation)
    ensures var (a', info') := Init(a, info);
      var checked := RootRelay.ValidateRequestAndSetAction(body, info.action);
      && g.adaptor == a' && g.info == info'
      && (checked.Refused? ==> g.sent.None? && g.outcome == Rejected(checked.error))
      && (checked.Passed? ==>
            && g.sent == Some(RootRelay.GenerationCall(a'.impl.value, info', checked.value, now))
            && (transport.Failed? ==> g.outcome == Rejected(LocalError(500, "request_failed", transport.reason)))
            && (transport.Response? ==> g.outcome == RootRelay.DoResponse(transport.statusCode, transport.body)))
    ensures g.outcome.Rejected? && g.outcome.error.localError ==> LocalCode(g.outcome.error.code)
  {
    var (a', info') := Init(a, info);
    match RootRelay.ValidateRequestAndSetAction(body, info.action)
    case Refused(e) => Generation(a', info', None, Rejected(e))
    case Passed(req) =>
      var call := RootRelay.GenerationCall(a'.impl.value, info', req, now);
      match transport
      case Failed(reason) => Generation(a', info', Some(call), Rejected(LocalError(500, "request_failed", reason)))
      case Response(status, payload) => Generation(a', info', Some(call), RootRelay.DoResponse(status, payload))
  }

  /** A request is sent exactly when the body decodes and passes the Kling
      adaptor's checks under the lower-cased action; the POST then carries
      the converted request to the info's base URL or the default. */
  lemma SentIffValid(a: TaskAdaptor, info: RelayInfo, body: Doc, now: int, transport: Transport)
    ensures var g := ProcessVideoGeneration(a, info, body, now, transport);
      && (g.sent.Some? <==>
            DecodeSubmit(body).Complete()
            && RootRelay.ActionValidate(DecodeSubmit(body).value, Text.ToLower(info.action)).None?)
      && (g.sent.Some? ==>
            && g.sent.value.body == Some(RootRelay.ConvertRequest(DecodeSubmit(body).value))
            && g.sent.value.url == (if info.baseUrl == "" then RootRelay.DefaultBaseUrl else info.baseUrl)
                                   + RootRelay.GenerationPath)
  {
  }

  /** `ProcessTaskFetch`: initialise, then fetch the task under the
      (filled-in) base URL with the info's API key. The result carries the
      adaptor and the caller's relay info as `Init` left them, and the GET. */
  function ProcessTaskFetch(a: TaskAdaptor, info: RelayInfo, taskId: string, now: int):
    (r: (TaskAdaptor, RelayInfo, Outbound<RootRelay.KP.KlingRequest>))
    ensures r.0 == Init(a, info).0 && r.1 == Init(a, info).1
    ensures r.1.baseUrl == (if info.baseUrl == "" then RootRelay.DefaultBaseUrl else info.baseUrl)
    ensures r.2 == RootRelay.FetchTask(r.1.baseUrl, info.apiKey, taskId, now)
    ensures r.2.url == r.1.baseUrl + RootRelay.GenerationPath + "/" + taskId
  {
    var (a', info') := Init(a, info);
    (a', info', RootRelay.FetchTask(info'.baseUrl, info'.apiKey, taskId, now))
  }

  /** The base URL written back into the relay info sticks: fetching again
      with the adaptor and info a fetch left behind changes nothing and
      sends the same GET. */
  lemma FetchAgainSame(a: TaskAdaptor, info: RelayInfo, taskId: string, now: int)
    ensures var r := ProcessTaskFetch(a, info, taskId, now);
      ProcessTaskFetch(r.0, r.1, taskId, now) == r
  {
  }

  /** The outcome of `actionValidate`: an error text, or the request with
      its model defaulted. */
  datatype Validated = Invalid(message: string) | Valid(request: SubmitRequest)

  /** `actionValidate`: only "generate" is accepted, and it needs a prompt;
      an empty model becomes "kling-v1". */
  function ActionValidate(req: SubmitRequest, action: string): (r: Validated)
    ensures r.Valid? <==> action == "generate" && req.prompt != ""
    ensures action != "generate" ==> r == Invalid("invalid_action")
    ensures action == "generate" && req.prompt == "" ==> r == Invalid("prompt_empty")
    ensures r.Valid? ==> r.request == req.(model := if req.model == "" then "kling-v1" else req.model)
  {
    if action != "generate" then Invalid("invalid_action")
    else if req.prompt == "" then Invalid("prompt_empty")
    else if req.model == "" then Valid(req.(model := "kling-v1"))
    else Valid(req)
  }

  /** Every request the Kling adaptor's own check accepts is accepted here
      too, with the adaptor's default model name filled in; the converse
      fails for an unlisted model. */
  lemma ActionValidateAcceptsMore(req: SubmitRequest, action: string)
    ensures RootRelay.ActionValidate(req, action).None? ==> ActionValidate(req, action).Valid?
    ensures ActionValidate(req, action).Valid? ==> ActionValidate(req, action).request.model != ""
    ensures req.model == "" && ActionValidate(req, action).Valid? ==>
      ActionValidate(req, action).request.model == RootRelay.DefaultModelName
    ensures action == "generate" && req.prompt != "" && req.model == "sora" ==>
      ActionValidate(req, action).Valid? && RootRelay.ActionValidate(req, action).Some?
  {
  }
}
