/** The older Kling provider of the `adapters` package (adapters/kling.go).
    Its status mapping, aspect-ratio buckets and task-result conversion are
    the same code as the `adapters/kling` provider's and are shared with
    `KlingProvider`; what differs is modelled here: the default base URL
    and endpoint, typed validation and API errors, the mode derived from the
    image, and a literal `access:secret` bearer token. */
module LegacyKling {
  import opened Options
  import opened Text
  import opened Errors
  import opened AdapterTypes
  import opened KlingWire
  import KP = KlingProvider

  const DefaultBaseUrl := "https://api.kuaishou.com"
  const GenerationPath := "/api/open/v1/video/generation"
  const ProviderTag := "Kling"

  /** `NewKlingProvider`: as the newer provider, with another default base
      URL. */
  function New(config: Option<ProviderConfig>): (r: Result<KP.Provider>)
    ensures config.None? ==> r == Err(Plain("invalid configuration"))
    ensures r.Ok? <==> config.Some? && SplitApiKey(config.value.apiKey).Some?
    ensures r.Err? ==> r.error.Plain?
    ensures r.Ok? ==>
      var c := config.value;
      && r.value.config == c
      && SplitApiKey(c.apiKey) == Some(KeyPair(r.value.accessKey, r.value.secretKey))
      && r.value.baseUrl == (if c.baseUrl == "" then DefaultBaseUrl else c.baseUrl)
      && r.value.timeout == (if c.timeout == 0 then KP.DefaultTimeout else c.timeout)
  {
    if config.None? then Err(Plain("invalid configuration"))
    else
      var c := config.value;
      match SplitApiKey(c.apiKey)
      case None => Err(Plain("invalid API key format for Kling, expected 'access_key,secret_key'"))
      case Some(keys) =>
        Ok(KP.Provider(c,
                       if c.timeout == 0 then KP.DefaultTimeout else c.timeout,
                       if c.baseUrl == "" then DefaultBaseUrl else c.baseUrl,
                       keys.access, keys.secret))
  }

  /** The two constructors accept and reject the same configurations and
      differ only in the base URL they fall back to. */
  lemma NewAgrees(config: Option<ProviderConfig>)
    ensures New(config).Ok? <==> KP.New(config).Ok?
    ensures New(config).Err? ==> New(config) == KP.New(config)
    ensures New(config).Ok? && config.value.baseUrl != "" ==> New(config) == KP.New(config)
    ensures New(config).Ok? && config.value.baseUrl == "" ==>
      New(config).value == KP.New(config).value.(baseUrl := DefaultBaseUrl)
  {
  }

  /** `ValidateRequest`: the same two checks in the same order as the
      newer provider, reported as the adapters package's validation error
      naming the field. */
  function ValidateRequest(req: GenerationRequest): (r: Option<Error>)
    ensures r.None? <==> (req.model == "" || req.model in KP.Models) && (req.duration == 5.0 || req.duration == 10.0)
    ensures req.model != "" && req.model !in KP.Models ==>
      r == Some(AdapterValidationError("model", "unsupported model: " + req.model))
    ensures (req.model == "" || req.model in KP.Models) && req.duration != 5.0 && req.duration != 10.0 ==>
      r == Some(AdapterValidationError("duration", "Kling only supports 5s or 10s duration"))
  {
    if req.model != "" && req.model !in KP.Models then
      Some(AdapterValidationError("model", "unsupported model: " + req.model))
    else if req.duration != 5.0 && req.duration != 10.0 then
      Some(AdapterValidationError("duration", "Kling only supports 5s or 10s duration"))
    else None
  }

  /** Both providers reject the same requests, and the older one's message
      is the newer one's prefixed with the field. */
  lemma ValidateAgrees(req: GenerationRequest)
    ensures ValidateRequest(req).None? <==> KP.ValidateRequest(req).None?
    ensures ValidateRequest(req).Some? ==>
      var e := ValidateRequest(req).value;
      Message(e) == ValidationErrorText(e.field, Message(KP.ValidateRequest(req).value))
  {
  }

  /** The older provider's request body: no model name or guidance scale. */
  datatype LegacyRequest = LegacyRequest(
    prompt: string,
    image: string,
    mode: string,
    duration: string,
    aspectRatio: string,
    model: string)

  /** `convertToKlingRequest`: the mode is image-to-video exactly when an
      image is given; duration, aspect ratio and the default model are as in
      the newer provider. */
  function ConvertRequest(req: GenerationRequest): (k: LegacyRequest)
    ensures k.prompt == req.prompt && k.image == req.image
    ensures k.mode == "img2video" <==> req.image != ""
    ensures k.mode == "txt2video" <==> req.image == ""
    ensures k.duration == (if req.duration == 10.0 then "10" else "5")
    ensures k.aspectRatio == KP.AspectRatio(req.width, req.height)
    ensures req.model != "" ==> k.model == req.model
    ensures req.model == "" ==> k.model == KP.DefaultModel
  {
    LegacyRequest(req.prompt, req.image,
                  if req.image != "" then "img2video" else "txt2video",
                  if req.duration == 10.0 then "10" else "5",
                  KP.AspectRatio(req.width, req.height),
                  if req.model != "" then req.model else KP.DefaultModel)
  }

  /** The two conversions agree on every field they share. */
  lemma ConvertAgrees(req: GenerationRequest)
    ensures
      var a := ConvertRequest(req);
      var b := KP.ConvertRequest(req);
      a.prompt == b.prompt && a.image == b.image && a.duration == b.duration
      && a.aspectRatio == b.aspectRatio && a.model == b.model
  {
  }

  /** `createJWTToken`: no token at all, the two keys joined by a colon. */
  function Token(p: KP.Provider): (c: Credential)
    ensures c.Literal? && |c.text| == |p.accessKey| + 1 + |p.secretKey|
    ensures c.text[..|p.accessKey|] == p.accessKey && c.text[|p.accessKey|] == ':'
    ensures c.text[|p.accessKey| + 1..] == p.secretKey
  {
    Literal(p.accessKey + ":" + p.secretKey)
  }

  /** The request `CreateGeneration` sends. */
  function CreateCall(p: KP.Provider, req: GenerationRequest): (o: Outbound<LegacyRequest>)
    ensures o.httpMethod == "POST" && o.url == p.baseUrl + GenerationPath
    ensures o.body == Some(ConvertRequest(req))
    ensures "Authorization" in o.headers && o.headers["Authorization"] == Bearer(Token(p))
  {
    Outbound("POST", p.baseUrl + GenerationPath, CallHeaders(Token(p)), Some(ConvertRequest(req)), p.timeout)
  }

  /** The request `GetGeneration` sends. */
  function QueryCall(p: KP.Provider, taskId: string): (o: Outbound<LegacyRequest>)
    ensures o.httpMethod == "GET" && o.url == p.baseUrl + GenerationPath + "/" + taskId
    ensures o.body.None?
    ensures "Authorization" in o.headers && o.headers["Authorization"] == Bearer(Token(p))
  {
    Outbound("GET", p.baseUrl + GenerationPath + "/" + taskId, CallHeaders(Token(p)), None, p.timeout)
  }

  /** `CreateGeneration`: a non-zero vendor code is the adapters package's
      API error tagged "Kling". */
  function CreateGeneration(p: KP.Provider, req: GenerationRequest, ex: Exchange<CreateReply>): (r: Result<GenerationResponse>)
    ensures r.Ok? <==> ex.Replied? && ex.body.code == 0
    ensures r.Ok? ==> r.value == GenerationResponse(ex.body.taskId, Queued)
    ensures !ex.Replied? ==> r == Err(ExchangeError(ex))
    ensures ex.Replied? && ex.body.code != 0 ==>
      r == Err(AdapterAPIError(ex.body.code, ex.body.message, ProviderTag))
  {
    match ex
    case Replied(body) =>
      if body.code != 0 then Err(AdapterAPIError(body.code, body.message, ProviderTag))
      else Ok(GenerationResponse(body.taskId, Queued))
    case _ => Err(ExchangeError(ex))
  }

  /** `GetGeneration`. */
  function GetGeneration(p: KP.Provider, taskId: string, ex: Exchange<TaskReply>,
                         parseFloat: string -> Option<real>): (r: Result<TaskResult>)
    ensures r.Ok? <==> ex.Replied? && ex.body.code == 0
    ensures r.Ok? ==> r.value == KP.ConvertTaskResult(ex.body.data, parseFloat)
    ensures !ex.Replied? ==> r == Err(ExchangeError(ex))
    ensures ex.Replied? && ex.body.code != 0 ==>
      r == Err(AdapterAPIError(ex.body.code, ex.body.message, ProviderTag))
  {
    match ex
    case Replied(body) =>
      if body.code != 0 then Err(AdapterAPIError(body.code, body.message, ProviderTag))
      else Ok(KP.ConvertTaskResult(body.data, parseFloat))
    case _ => Err(ExchangeError(ex))
  }

  /** Given the same exchange, both providers succeed together with the same
      answer; when the vendor refuses, the older one's message is the newer
      one's tagged "[Kling] ", and neither error is retried by the client. */
  lemma CallsAgree(p: KP.Provider, q: KP.Provider, req: GenerationRequest, ex: Exchange<CreateReply>)
    ensures CreateGeneration(p, req, ex).Ok? <==> KP.CreateGeneration(q, req, ex).Ok?
    ensures CreateGeneration(p, req, ex).Ok? ==> CreateGeneration(p, req, ex) == KP.CreateGeneration(q, req, ex)
    ensures ex.Replied? && ex.body.code != 0 ==>
      Message(CreateGeneration(p, req, ex).error) == "[Kling] " + Message(KP.CreateGeneration(q, req, ex).error)
    ensures CreateGeneration(p, req, ex).Err? ==> !IsRetryable(CreateGeneration(p, req, ex).error)
  {
    var legacy := CreateGeneration(p, req, ex);
    if !ex.Replied? {
      ExchangeErrorNotRetryable(ex);
    } else if ex.body.code != 0 {
      NonSentinelLeavesNotRetryable(legacy.error);
    }
  }
}
