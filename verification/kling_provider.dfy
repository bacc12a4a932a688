/** The Kling provider of the `adapters/kling` package
    (adapters/kling/kling.go): configuration, request validation, the
    conversion to and from Kling's wire format, and the two vendor calls.
    The HTTP exchange is an input: each call takes the `Exchange` the
    network produced. */
module KlingProvider {
  import opened Options
  import opened Text
  import opened Errors
  import Types
  import opened AdapterTypes
  import opened KlingWire

  const Models: seq<string> := ["kling-v1", "kling-v1-6", "kling-v2-master"]
  const DefaultModel := "kling-v2-master"
  const DefaultBaseUrl := "https://api.klingai.com"
  const DefaultTimeout: Types.Duration := 30 * Types.Second
  const Name := "Kling"

  /** A configured provider. The HTTP client is represented by its
      timeout. */
  datatype Provider = Provider(
    config: ProviderConfig,
    timeout: Types.Duration,
    baseUrl: string,
    accessKey: string,
    secretKey: string)

  /** `New`: a missing configuration and a key that is not one
      `access,secret` pair are rejected; the base URL and timeout fall back
      to their defaults when unset. */
  function New(config: Option<ProviderConfig>): (r: Result<Provider>)
    ensures config.None? ==> r == Err(Plain("invalid configuration"))
    ensures r.Ok? <==> config.Some? && Count(config.value.apiKey, ',') == 1
    ensures r.Err? ==> r.error.Plain?
    ensures r.Ok? ==>
      var c := config.value;
      && r.value.config == c
      && SplitApiKey(c.apiKey) == Some(KeyPair(r.value.accessKey, r.value.secretKey))
      && (c.baseUrl != "" ==> r.value.baseUrl == c.baseUrl)
      && (c.baseUrl == "" ==> r.value.baseUrl == DefaultBaseUrl)
      && (c.timeout != 0 ==> r.value.timeout == c.timeout)
      && (c.timeout == 0 ==> r.value.timeout == DefaultTimeout)
  {
    if config.None? then Err(Plain("invalid configuration"))
    else
      var c := config.value;
      match SplitApiKey(c.apiKey)
      case None => Err(Plain("invalid API key format for Kling, expected 'access_key,secret_key'"))
      case Some(keys) =>
        Ok(Provider(c,
                    if c.timeout == 0 then DefaultTimeout else c.timeout,
                    if c.baseUrl == "" then DefaultBaseUrl else c.baseUrl,
                    keys.access, keys.secret))
  }

  /** `SupportedModels`: a fresh copy of the model list. */
  function SupportedModels(p: Provider): (models: seq<string>)
    ensures |models| == 3 && DefaultModel in models
    ensures forall m :: m in models <==> m in Models
  {
    Models
  }

  /** `ValidateRequest`: an explicit model must be one of the supported
      ones (checked first), and the duration must be exactly 5 or 10
      seconds. `None` is Go's nil error. */
  function ValidateRequest(req: GenerationRequest): (r: Option<Error>)
    ensures r.None? <==> (req.model == "" || req.model in Models) && (req.duration == 5.0 || req.duration == 10.0)
    ensures req.model != "" && req.model !in Models ==> r == Some(Plain("unsupported model: " + req.model))
    ensures (req.model == "" || req.model in Models) && req.duration != 5.0 && req.duration != 10.0 ==>
      r == Some(Plain("Kling only supports 5s or 10s duration"))
  {
    if req.model != "" && req.model !in Models then Some(Plain("unsupported model: " + req.model))
    else if req.duration != 5.0 && req.duration != 10.0 then Some(Plain("Kling only supports 5s or 10s duration"))
    else None
  }

  /** The body of a Kling generation call. The camera and mask fields are
      never set by the adapter and are left out. */
  datatype KlingRequest = KlingRequest(
    prompt: string,
    image: string,
    mode: string,
    duration: string,
    aspectRatio: string,
    model: string,
    modelName: string,
    cfgScale: real)

  /** `getAspectRatio`: the ratio `width / height`, taken here as an exact
      real quotient rather than a float64 one, bucketed at 1.5 and 0.7. A zero height divides by zero: a positive width gives +Inf
      (landscape), a negative one -Inf (portrait), and zero gives NaN, which
      fails both comparisons (square). */
  function AspectRatio(width: int, height: int): (r: string)
    ensures r == "16:9" || r == "9:16" || r == "1:1"
    ensures height == 0 ==> (r == "16:9" <==> width > 0) && (r == "9:16" <==> width < 0)
  {
    if height == 0 then
      if width > 0 then "16:9" else if width < 0 then "9:16" else "1:1"
    else
      var ratio := width as real / height as real;
      if ratio > 1.5 then "16:9" else if ratio < 0.7 then "9:16" else "1:1"
  }

  /** For a positive height the buckets are the integer comparisons
      `2w > 3h` (landscape), `10w < 7h` (portrait) and square between. */
  lemma AspectRatioBuckets(width: int, height: int)
    requires height > 0
    ensures AspectRatio(width, height) == "16:9" <==> 2 * width > 3 * height
    ensures AspectRatio(width, height) == "9:16" <==> 10 * width < 7 * height
    ensures AspectRatio(width, height) == "1:1" <==> 7 * height <= 10 * width && 2 * width <= 3 * height
  {
    var h := height as real;
    var w := width as real;
    QuotientOrder(w, h, 1.5);
    QuotientOrder(w, h, 0.7);
    assert (2 * width) as real == 2.0 * w && (3 * height) as real == 3.0 * h;
    assert (10 * width) as real == 10.0 * w && (7 * height) as real == 7.0 * h;
  }

  /** Comparing a quotient by a positive number is comparing the dividend
      with the scaled bound. */
  lemma QuotientOrder(w: real, h: real, c: real)
    requires h > 0.0
    ensures w / h > c <==> w > c * h
    ensures w / h < c <==> w < c * h
  {
    var q := w / h;
    assert q * h == w;
    if q > c {
      assert (q - c) * h > 0.0;
    } else if q < c {
      assert (c - q) * h > 0.0;
    } else {
      assert q == c;
    }
  }

  /** The usual frame sizes land where expected. */
  lemma AspectRatioExamples()
    ensures AspectRatio(1920, 1080) == "16:9"
    ensures AspectRatio(1080, 1920) == "9:16"
    ensures AspectRatio(1024, 1024) == "1:1"
    ensures AspectRatio(0, 0) == "1:1"
  {
    AspectRatioBuckets(1920, 1080);
    AspectRatioBuckets(1080, 1920);
    AspectRatioBuckets(1024, 1024);
  }

  /** `convertToKlingRequest`: prompt and image are copied; the mode comes
      from a non-empty string `mode` metadata entry or is "std"; the
      duration is "10" only for exactly ten seconds; an empty model becomes
      the default model in both model fields; the guidance scale is 0.5. */
  function ConvertRequest(req: GenerationRequest): (k: KlingRequest)
    ensures k.prompt == req.prompt && k.image == req.image
    ensures k.duration == (if req.duration == 10.0 then "10" else "5")
    ensures k.aspectRatio == AspectRatio(req.width, req.height)
    ensures k.model == k.modelName != ""
    ensures req.model != "" ==> k.model == req.model
    ensures req.model == "" ==> k.model == DefaultModel
    ensures Types.NonEmptyString(req.metadata, "mode").Some? ==> k.mode == req.metadata["mode"].text
    ensures Types.NonEmptyString(req.metadata, "mode").None? ==> k.mode == "std"
    ensures k.cfgScale == 0.5
  {
    var model := if req.model == "" then DefaultModel else req.model;
    KlingRequest(req.prompt, req.image,
                 Types.NonEmptyString(req.metadata, "mode").GetOr("std"),
                 if req.duration == 10.0 then "10" else "5",
                 AspectRatio(req.width, req.height),
                 model, model, 0.5)
  }

  /** Seconds named by a Kling duration field. */
  function DurationSeconds(d: string): Option<real> {
    if d == "5" then Some(5.0) else if d == "10" then Some(10.0) else None
  }

  /** For a request `ValidateRequest` accepts, the converted request asks
      for exactly the requested duration and a supported model. */
  lemma ValidRequestConverts(req: GenerationRequest)
    requires ValidateRequest(req).None?
    ensures DurationSeconds(ConvertRequest(req).duration) == Some(req.duration)
    ensures ConvertRequest(req).model in Models
  {
  }

  /** `convertStatus`: Kling's vocabulary mapped onto the four statuses;
      anything unknown is still queued. */
  function ConvertStatus(s: string): (r: TaskStatus)
    ensures Canonical(r)
    ensures r == Succeeded <==> s == "succeed"
    ensures r == Failed <==> s == "failed"
    ensures r == Processing <==> s == "processing"
    ensures r == Queued <==> s != "succeed" && s != "failed" && s != "processing"
  {
    match s
    case "submitted" => Queued
    case "queued" => Queued
    case "processing" => Processing
    case "succeed" => Succeeded
    case "failed" => Failed
    case _ => Queued
  }

  /** Kling's name for each of the four statuses. */
  function KlingStatus(s: TaskStatus): string
    requires Canonical(s)
  {
    if s == Queued then "submitted"
    else if s == Processing then "processing"
    else if s == Succeeded then "succeed"
    else "failed"
  }

  /** `ConvertStatus` inverts `KlingStatus`: every status survives a trip
      through Kling's vocabulary. */
  lemma StatusRoundTrip(s: TaskStatus)
    requires Canonical(s)
    ensures ConvertStatus(KlingStatus(s)) == s
  {
  }

  /** The first video of a reply, when it has one: there is none when
      the result is missing or lists no video. */
  function FirstVideo(data: TaskData): (r: Option<Video>)
    ensures r.Some? <==> data.videos.Some? && |data.videos.value| > 0
    ensures r.Some? ==> r.value == data.videos.value[0]
  {
    if data.videos.Some? && |data.videos.value| > 0 then Some(data.videos.value[0]) else None
  }

  /** `convertToTaskResult`: id and converted status; the first video, when
      there is one, gives the URL and the mp4 format, and metadata only
      when its duration parses as a float. `parseFloat` stands for
      `strconv.ParseFloat`. */
  function ConvertTaskResult(data: TaskData, parseFloat: string -> Option<real>): (r: TaskResult)
    ensures r.taskId == data.id && r.status == ConvertStatus(data.status)
    ensures r.error.None?
    ensures FirstVideo(data).None? ==> r.url == "" && r.format == "" && r.metadata.None?
    ensures FirstVideo(data).Some? ==>
      var v := FirstVideo(data).value;
      && r.url == v.url && r.format == "mp4"
      && (r.metadata.Some? <==> parseFloat(v.duration).Some?)
      && (r.metadata.Some? ==> r.metadata.value == Metadata(parseFloat(v.duration).value, 0, 0, 0, None, "mp4"))
  {
    var base := TaskResult(data.id, ConvertStatus(data.status), "", "", None, None);
    match FirstVideo(data)
    case None => base
    case Some(v) =>
      var md := match parseFloat(v.duration)
        case Some(d) => Some(Metadata(d, 0, 0, 0, None, "mp4"))
        case None => None;
      base.(url := v.url, format := "mp4", metadata := md)
  }

  /** The bearer credential for a call made at `now`. */
  function Token(p: Provider, now: int): (c: Credential)
    ensures c.Signed? && c.claims.iss == p.accessKey && c.secret == p.secretKey
    ensures c.claims.nbf < now < c.claims.exp
  {
    SignedToken(p.accessKey, p.secretKey, now)
  }

  const CreatePath := "/v1/videos/image2video"

  /** The request `CreateGeneration` sends. */
  function CreateCall(p: Provider, req: GenerationRequest, now: int): (o: Outbound<KlingRequest>)
    ensures o.httpMethod == "POST" && o.url == p.baseUrl + CreatePath
    ensures o.body == Some(ConvertRequest(req))
    ensures o.headers.Keys == {"Content-Type", "Authorization", "User-Agent"}
    ensures "Authorization" in o.headers && o.headers["Authorization"] == Bearer(Token(p, now))
  {
    Outbound("POST", p.baseUrl + CreatePath, CallHeaders(Token(p, now)), Some(ConvertRequest(req)), p.timeout)
  }

  /** The request `GetGeneration` sends: a bodiless GET on the task. */
  function QueryCall(p: Provider, taskId: string, now: int): (o: Outbound<KlingRequest>)
    ensures o.httpMethod == "GET" && o.url == p.baseUrl + CreatePath + "/" + taskId
    ensures o.body.None?
    ensures "Authorization" in o.headers && o.headers["Authorization"] == Bearer(Token(p, now))
  {
    Outbound("GET", p.baseUrl + CreatePath + "/" + taskId, CallHeaders(Token(p, now)), None, p.timeout)
  }

  /** The plain error a non-zero vendor code becomes. */
  function VendorError(code: int, message: string): (e: Error)
    ensures e.Plain? && Message(e) == ApiErrorText(code, message, "")
  {
    Plain(ApiErrorText(code, message, ""))
  }

  /** `CreateGeneration` given what the exchange produced: exchange
      failures are wrapped, a non-zero code becomes an untagged plain
      "API error", and a zero code gives the task id, queued. The JWT branch
      of the source cannot fail and is absent. */
  function CreateGeneration(p: Provider, req: GenerationRequest, ex: Exchange<CreateReply>): (r: Result<GenerationResponse>)
    ensures r.Ok? <==> ex.Replied? && ex.body.code == 0
    ensures r.Ok? ==> r.value == GenerationResponse(ex.body.taskId, Queued)
    ensures !ex.Replied? ==> r == Err(ExchangeError(ex))
    ensures ex.Replied? && ex.body.code != 0 ==> r == Err(VendorError(ex.body.code, ex.body.message))
  {
    match ex
    case Replied(body) =>
      if body.code != 0 then Err(VendorError(body.code, body.message))
      else Ok(GenerationResponse(body.taskId, Queued))
    case _ => Err(ExchangeError(ex))
  }

  /** `GetGeneration` given what the exchange produced. */
  function GetGeneration(p: Provider, taskId: string, ex: Exchange<TaskReply>,
                         parseFloat: string -> Option<real>): (r: Result<TaskResult>)
    ensures r.Ok? <==> ex.Replied? && ex.body.code == 0
    ensures r.Ok? ==> r.value == ConvertTaskResult(ex.body.data, parseFloat)
    ensures !ex.Replied? ==> r == Err(ExchangeError(ex))
    ensures ex.Replied? && ex.body.code != 0 ==> r == Err(VendorError(ex.body.code, ex.body.message))
  {
    match ex
    case Replied(body) =>
      if body.code != 0 then Err(VendorError(body.code, body.message))
      else Ok(ConvertTaskResult(body.data, parseFloat))
    case _ => Err(ExchangeError(ex))
  }

  /** Nothing this provider returns is ever retried by the client: its
      errors wrap no sentinel and are not the `vidgo` API error type. */
  lemma ProviderErrorsNotRetryable<T>(ex: Exchange<T>, code: int, message: string)
    ensures !ex.Replied? ==> !IsRetryable(ExchangeError(ex))
    ensures !IsRetryable(VendorError(code, message))
  {
    if !ex.Replied? {
      ExchangeErrorNotRetryable(ex);
    }
    NonSentinelLeavesNotRetryable(VendorError(code, message));
  }
}
