/** The relay adaptor of the `adapters/kling` package
    (adapters/kling/kling_adaptor.go). Unlike the `vidgo` one it does not
    call Kling over HTTP itself: it keeps a Kling `Provider`, calls it, and
    answers with a synthesised reply in Kling's JSON shape. */
module ProviderRelay {
  import opened Options
  import opened Text
  import opened Errors
  import opened Json
  import opened KlingWire
  import opened RelayTypes
  import AT = AdapterTypes
  import KP = KlingProvider

  const DefaultBaseUrl := "https://api.klingai.com"
  const GenerationPath := "/v1/videos/image2video"
  const ChannelName := "kling"

  /** `KlingAdaptor`: the channel type and the provider, if one was ever
      created. `NewKlingAdaptor` gives `Fresh()`. */
  datatype Adaptor = Adaptor(channelType: int, provider: Option<KP.Provider>)

  function Fresh(): Adaptor {
    Adaptor(0, None)
  }

  /** The configuration `Init` hands to `New`. */
  function InitConfig(info: RelayInfo): (c: AT.ProviderConfig)
    ensures c.apiKey == info.apiKey && c.baseUrl != ""
    ensures c.baseUrl == (if info.baseUrl == "" then DefaultBaseUrl else info.baseUrl)
  {
    AT.KeyConfig(info.apiKey, if info.baseUrl == "" then DefaultBaseUrl else info.baseUrl)
  }

  /** `Init`: records the channel type and creates a provider from the
      info's key and base URL. When creation fails the error is dropped and
      the previous provider, if any, stays. */
  function Init(k: Adaptor, info: RelayInfo): (r: Adaptor)
    ensures r.channelType == info.channelType
    ensures KP.New(Some(InitConfig(info))).Ok? ==> r.provider == Some(KP.New(Some(InitConfig(info))).value)
    ensures KP.New(Some(InitConfig(info))).Err? ==> r.provider == k.provider
    ensures r.provider.Some? <==> SplitApiKey(info.apiKey).Some? || k.provider.Some?
  {
    match KP.New(Some(InitConfig(info)))
    case Ok(p) => Adaptor(info.channelType, Some(p))
    case Err(_) => k.(channelType := info.channelType)
  }

  /** A provider created by `Init` talks to the info's base URL or the
      default, with the default timeout. */
  lemma InitProvider(k: Adaptor, info: RelayInfo)
    requires SplitApiKey(info.apiKey).Some?
    ensures var p := Init(k, info).provider.value;
      && p.baseUrl == InitConfig(info).baseUrl
      && p.timeout == KP.DefaultTimeout
      && SplitApiKey(info.apiKey) == Some(KeyPair(p.accessKey, p.secretKey))
  {
  }

  /** Frame sizes known by name. */
  function SizeDimensions(size: string): (r: Option<(int, int)>)
    ensures r.Some? ==> r.value.0 > 0 && r.value.1 > 0
  {
    match size
    case "1024x1024" => Some((1024, 1024))
    case "512x512" => Some((512, 512))
    case "1280x720" => Some((1280, 720))
    case "1920x1080" => Some((1920, 1080))
    case "720x1280" => Some((720, 1280))
    case "1080x1920" => Some((1080, 1920))
    case _ => None
  }

  /** `convertToGenerationRequest`: prompt, model, duration and metadata
      are carried over; width and height come from a known size name and
      stay zero otherwise; a non-empty string `image` metadata entry
      replaces the request's image. */
  function ConvertToGenerationRequest(req: SubmitRequest): (g: AT.GenerationRequest)
    ensures g.prompt == req.prompt && g.model == req.model && g.duration == req.duration as real
    ensures g.metadata == Metadata(req.metadata)
    ensures SizeDimensions(req.size).Some? ==> (g.width, g.height) == SizeDimensions(req.size).value
    ensures SizeDimensions(req.size).None? ==> g.width == 0 && g.height == 0
    ensures g.image == NonEmptyStringMember(req.metadata, "image").GetOr(req.image)
  {
    var dims := SizeDimensions(req.size).GetOr((0, 0));
    AT.BareRequest(req.prompt, req.model, NonEmptyStringMember(req.metadata, "image").GetOr(req.image),
                   req.duration as real, Metadata(req.metadata)).(width := dims.0, height := dims.1)
  }

  /** The metadata map the provider sees answers string lookups exactly as
      the relayed JSON does. */
  lemma MetadataLookupAgrees(m: map<string, Value>, key: string)
    ensures AT.Types.NonEmptyString(Metadata(m), key) == NonEmptyStringMember(m, key)
  {
  }

  /** `ValidateRequestAndSetAction`: the body must decode; with a provider
      the converted request must also pass the provider's validation. The
      action is lower-cased and then not used. */
  function ValidateRequestAndSetAction(k: Adaptor, body: Doc, action: string): (r: Checked<SubmitRequest>)
    ensures r.Passed? <==>
      && DecodeSubmit(body).Complete()
      && (k.provider.Some? ==> KP.ValidateRequest(ConvertToGenerationRequest(DecodeSubmit(body).value)).None?)
    ensures r.Passed? ==> r.value == DecodeSubmit(body).value
    ensures r.Refused? ==> r.error.statusCode == 400 && r.error.code == "invalid_request" && r.error.localError
    ensures !DecodeSubmit(body).Complete() ==>
      r.error.message == "Failed to parse request: " + IssueText(DecodeSubmit(body).issue.value)
    ensures DecodeSubmit(body).Complete() && r.Refused? ==>
      r.error.message == Message(KP.ValidateRequest(ConvertToGenerationRequest(DecodeSubmit(body).value)).value)
  {
    var _ := ToLower(action);
    var decoded := DecodeSubmit(body);
    if !decoded.Complete() then
      Refused(LocalError(400, "invalid_request", "Failed to parse request: " + IssueText(decoded.issue.value)))
    else if k.provider.Some? && KP.ValidateRequest(ConvertToGenerationRequest(decoded.value)).Some? then
      Refused(LocalError(400, "invalid_request",
                         Message(KP.ValidateRequest(ConvertToGenerationRequest(decoded.value)).value)))
    else Passed(decoded.value)
  }

  /** The action plays no part in validation. */
  lemma ActionIgnored(k: Adaptor, body: Doc, a: string, b: string)
    ensures ValidateRequestAndSetAction(k, body, a) == ValidateRequestAndSetAction(k, body, b)
  {
  }

  /** Through this adaptor a relayed request passes the provider's checks
      exactly when its model is empty or supported and its duration is 5 or
      10 seconds. */
  lemma ValidationViaProvider(k: Adaptor, body: Doc, action: string)
    requires k.provider.Some? && DecodeSubmit(body).Complete()
    ensures var req := DecodeSubmit(body).value;
      ValidateRequestAndSetAction(k, body, action).Passed? <==>
        (req.model == "" || req.model in KP.Models) && (req.duration == 5 || req.duration == 10)
  {
  }

  /** `BuildRequestURL`: the endpoint under the info's base URL or the
      default; it never fails. */
  function BuildRequestURL(info: RelayInfo): (url: string)
    ensures url == (if info.baseUrl == "" then DefaultBaseUrl else info.baseUrl) + GenerationPath
  {
    (if info.baseUrl == "" then DefaultBaseUrl else info.baseUrl) + GenerationPath
  }

  /** `BuildRequestHeader`: the provider's token, or the raw API key when
      there is no provider. */
  function BuildRequestHeader(k: Adaptor, info: RelayInfo, now: int): (h: map<string, HeaderValue>)
    ensures h.Keys == {"Content-Type", "Accept", "Authorization", "User-Agent"}
    ensures k.provider.Some? ==> h["Authorization"] == Bearer(KP.Token(k.provider.value, now))
    ensures k.provider.None? ==> h["Authorization"] == Bearer(Literal(info.apiKey))
    ensures h["Content-Type"] == h["Accept"] == Text(JsonType)
    ensures h["User-Agent"] == Text(UserAgent)
  {
    var token := if k.provider.Some? then KP.Token(k.provider.value, now) else Literal(info.apiKey);
    map["Content-Type" := Text(JsonType), "Accept" := Text(JsonType),
        "Authorization" := Bearer(token), "User-Agent" := Text(UserAgent)]
  }

  /** `BuildRequestBody`: the relayed request re-encoded as it is;
      marshalling it cannot fail. */
  function BuildRequestBody(req: SubmitRequest): (body: Doc)
    ensures body == Json(EncodeSubmit(req))
  {
    Json(EncodeSubmit(req))
  }

  /** The synthesised acknowledgement of a creation: code 0, message
      "success", and the task id and status. */
  function Ack(taskId: string, status: string): (v: Value)
    ensures v.Obj? && "code" in v.fields && v.fields["code"] == Num(0)
  {
    Obj(map["code" := Num(0), "message" := Str("success"),
            "data" := Obj(map["task_id" := Str(taskId), "status" := Str(status)])])
  }

  /** A synthesised HTTP reply: always status 200, with a JSON body. */
  datatype MockReply = MockReply(statusCode: int, body: Value)

  /** `DoRequest`: without a provider nothing happens; otherwise the body
      is decoded, converted and passed to the provider's
      `CreateGeneration` (whose exchange is `ex`), and its answer becomes a
      200 acknowledgement. Errors are wrapped with `%w`. */
  function DoRequest(k: Adaptor, body: Doc, ex: Exchange<CreateReply>): (r: Result<MockReply>)
    ensures k.provider.None? ==> r == Err(Plain("provider not initialized"))
    ensures k.provider.Some? && !DecodeSubmit(body).Complete() ==>
      r == Err(Wrapped("failed to parse request: ", Plain(IssueText(DecodeSubmit(body).issue.value))))
    ensures k.provider.Some? && DecodeSubmit(body).Complete() ==>
      var created := KP.CreateGeneration(k.provider.value, ConvertToGenerationRequest(DecodeSubmit(body).value), ex);
      && (created.Err? ==> r == Err(Wrapped("video generation failed: ", created.error)))
      && (created.Ok? ==> r == Ok(MockReply(200, Ack(created.value.taskId, created.value.status))))
  {
    if k.provider.None? then Err(Plain("provider not initialized"))
    else
      var decoded := DecodeSubmit(body);
      if !decoded.Complete() then
        Err(Wrapped("failed to parse request: ", Plain(IssueText(decoded.issue.value))))
      else
        match KP.CreateGeneration(k.provider.value, ConvertToGenerationRequest(decoded.value), ex)
        case Err(e) => Err(Wrapped("video generation failed: ", e))
        case Ok(created) => Ok(MockReply(200, Ack(created.taskId, created.status)))
  }

  /** The body `BuildRequestBody` produced decodes in `DoRequest` to the
      request it came from, so the provider receives exactly the converted
      request. */
  lemma DoRequestSeesBuiltRequest(k: Adaptor, req: SubmitRequest, ex: Exchange<CreateReply>)
    requires k.provider.Some? && MinInt <= req.duration <= MaxInt
    ensures var created := KP.CreateGeneration(k.provider.value, ConvertToGenerationRequest(req), ex);
      && (created.Ok? ==> DoRequest(k, BuildRequestBody(req), ex) == Ok(MockReply(200, Ack(created.value.taskId, AT.Queued))))
      && (created.Err? ==> DoRequest(k, BuildRequestBody(req), ex) == Err(Wrapped("video generation failed: ", created.error)))
  {
    SubmitRoundTrip(req);
  }

  // ---------------------------------------------------------------------
  // Kling-shaped replies
  // ---------------------------------------------------------------------

  /** `TaskData`: task id, status and the task's videos. */
  datatype ReplyData = ReplyData(taskId: string, status: string, videos: seq<Video>)

  /** `Response`. */
  datatype Response = Response(code: int, message: string, data: ReplyData, url: string)

  /** One element of a `[]Video`. */
  function DecodeVideo(v: Value): (r: Decoded<Video>)
    ensures v.Obj? && r.Complete() ==> r.value == Video(StringField(Member(v.fields, "id"), "").value,
                                                      StringField(Member(v.fields, "url"), "").value,
                                                      StringField(Member(v.fields, "duration"), "").value)
  {
    var m := StructMembers(v, "Video");
    var id := StringField(Member(m.value, "id"), "Video.id");
    var url := StringField(Member(m.value, "url"), "Video.url");
    var duration := StringField(Member(m.value, "duration"), "Video.duration");
    Decoded(Video(id.value, url.value, duration.value), First(m.issue, First(id.issue, First(url.issue, duration.issue))))
  }

  /** The elements of a `[]Video` array, each decoded in turn; the first
      element error is reported. */
  function DecodeVideos(items: seq<Value>): (r: Decoded<seq<Video>>)
    ensures |r.value| == |items|
    ensures r.Complete() <==> forall i :: 0 <= i < |items| ==> DecodeVideo(items[i]).Complete()
    ensures forall i :: 0 <= i < |items| ==> r.value[i] == DecodeVideo(items[i]).value
  {
    if items == [] then Decoded([], None)
    else
      var head := DecodeVideo(items[0]);
      var tail := DecodeVideos(items[1..]);
      assert forall i :: 1 <= i < |items| ==> items[i] == items[1..][i - 1];
      Decoded([head.value] + tail.value, First(head.issue, tail.issue))
  }

  /** A `[]Video` field: null is empty, an array is decoded element by
      element. */
  function VideosField(v: Value): (r: Decoded<seq<Video>>)
    ensures v.Arr? ==> r == DecodeVideos(v.items)
    ensures v.Null? ==> r == Decoded([], None)
    ensures !v.Arr? && !v.Null? ==> !r.Complete()
  {
    match v
    case Null => Decoded([], None)
    case Arr(items) => DecodeVideos(items)
    case _ => Decoded([], Some(Mismatch("TaskResult.videos")))
  }

  /** The `data` member of a `Response`. */
  function DecodeReplyData(v: Value): (r: Decoded<ReplyData>)
    ensures var data := StructMembers(v, "").value;
      var result := StructMembers(Member(data, "task_result"), "");
      && r.value.taskId == StringField(Member(data, "task_id"), "").value
      && r.value.status == StringField(Member(data, "status"), "").value
      && r.value.videos == VideosField(Member(result.value, "videos")).value
    ensures r.Complete() ==> v.Null? || v.Obj?
    ensures var data := StructMembers(v, "");
      var result := StructMembers(Member(data.value, "task_result"), "");
      r.Complete() <==>
        && data.Complete() && StringField(Member(data.value, "task_id"), "").Complete()
        && StringField(Member(data.value, "status"), "").Complete()
        && result.Complete() && VideosField(Member(result.value, "videos")).Complete()
  {
    var data := StructMembers(v, "Response.data");
    var taskId := StringField(Member(data.value, "task_id"), "TaskData.task_id");
    var status := StringField(Member(data.value, "status"), "TaskData.status");
    var result := StructMembers(Member(data.value, "task_result"), "TaskData.task_result");
    var videos := VideosField(Member(result.value, "videos"));
    Decoded(ReplyData(taskId.value, status.value, videos.value),
            First(data.issue, First(taskId.issue, First(status.issue, First(result.issue, videos.issue)))))
  }

  /** `json.Unmarshal(body, &Response{})`. */
  function DecodeResponse(d: Doc): (r: Decoded<Response>)
    ensures d.Malformed? ==> r == Decoded(Response(0, "", ReplyData("", "", []), ""), Some(Syntax(d.reason)))
    ensures d.Json? && d.root.Null? ==> r == Decoded(Response(0, "", ReplyData("", "", []), ""), None)
    ensures d.Json? && d.root.Obj? ==>
      var f := d.root.fields;
      && r.value.code == IntField(Member(f, "code"), "").value
      && r.value.message == StringField(Member(f, "message"), "").value
      && r.value.data == DecodeReplyData(Member(f, "data")).value
      && r.value.url == StringField(Member(f, "url"), "").value
    ensures d.Json? && d.root.Obj? ==>
      r.value.data.taskId ==
        StringField(Member(StructMembers(Member(d.root.fields, "data"), "").value, "task_id"), "").value
    ensures r.Complete() ==> d.Json? && (d.root.Null? || d.root.Obj?)
    ensures d.Json? && d.root.Obj? ==>
      var f := d.root.fields;
      r.Complete() <==>
        && IntField(Member(f, "code"), "").Complete() && StringField(Member(f, "message"), "").Complete()
        && DecodeReplyData(Member(f, "data")).Complete() && StringField(Member(f, "url"), "").Complete()
  {
    var top := DocMembers(d, "Response");
    var f := top.value;
    var code := IntField(Member(f, "code"), "Response.code");
    var message := StringField(Member(f, "message"), "Response.message");
    var data := DecodeReplyData(Member(f, "data"));
    var url := StringField(Member(f, "url"), "Response.url");
    Decoded(Response(code.value, message.value, data.value, url.value),
            First(top.issue, First(code.issue, First(message.issue, First(data.issue, url.issue)))))
  }

  /** When the generic envelope decodes cleanly with a success code, the
      body's `code` is a string, so the `Response` decoding leaves its
      integer code at zero. */
  lemma EnvelopeSuccessResponseCodeZero(d: Doc)
    ensures DecodeEnvelope(d).Complete() && DecodeEnvelope(d).value.IsSuccess() ==> DecodeResponse(d).value.code == 0
  {
    if DecodeEnvelope(d).Complete() && DecodeEnvelope(d).value.IsSuccess() {
      EnvelopeSuccessNeedsStringCode(d);
    }
  }

  /** `DoResponse`: as the `vidgo` adaptor's, except that a Kling success
      must carry a non-empty task id, and a decoding failure of the generic
      envelope reports only the decoder's error. */
  function DoResponse(statusCode: int, body: Payload): (r: Outcome)
    ensures body.Unreadable? ==> r == Rejected(LocalError(500, "read_response_body_failed", body.reason))
    ensures body.Readable? && DecodeResponse(body.doc).Complete() && DecodeResponse(body.doc).value.code == 0
            && DecodeResponse(body.doc).value.data.taskId != "" ==>
      r == Accepted(DecodeResponse(body.doc).value.data.taskId, body.raw)
    ensures body.Readable? && !(DecodeResponse(body.doc).Complete() && DecodeResponse(body.doc).value.code == 0
                                && DecodeResponse(body.doc).value.data.taskId != "") ==>
      var generic := DecodeEnvelope(body.doc);
      && (!generic.Complete() ==>
            r == Rejected(LocalError(500, "unmarshal_response_body_failed", IssueText(generic.issue.value))))
      && (generic.Complete() && !generic.value.IsSuccess() ==>
            r == Rejected(TaskAdaptorError(statusCode, generic.value.code, generic.value.message, false)))
      && (generic.Complete() && generic.value.IsSuccess() ==> r == Accepted(generic.value.data, body.raw))
    ensures body.Readable? && !DecodeEnvelope(body.doc).Complete() ==>
      r.Rejected? || (r.Accepted? && r.taskId != "")
    ensures r.Rejected? && !r.error.localError ==> r.error.statusCode == statusCode
  {
    match body
    case Unreadable(reason) => Rejected(LocalError(500, "read_response_body_failed", reason))
    case Readable(raw, doc) =>
      var kling := DecodeResponse(doc);
      if kling.Complete() && kling.value.code == 0 && kling.value.data.taskId != "" then
        Accepted(kling.value.data.taskId, raw)
      else
        var generic := DecodeEnvelope(doc);
        EnvelopeSuccessResponseCodeZero(doc);
        if !generic.Complete() then
          Rejected(LocalError(500, "unmarshal_response_body_failed", IssueText(generic.issue.value)))
        else if !generic.value.IsSuccess() then
          Rejected(TaskAdaptorError(statusCode, generic.value.code, generic.value.message, false))
        else if kling.value.code != 0 then
          Rejected(TaskAdaptorError(statusCode, KlingErrorCode(kling.value.code), kling.value.message, false))
        else Accepted(generic.value.data, raw)
  }

  /** The adaptor's own acknowledgement, read back by `DoResponse`, is
      accepted with its task id exactly when that id is non-empty; an empty
      id fails to decode as the generic envelope (its code is a number),
      giving a local 500. */
  lemma AckReadBack(raw: string, taskId: string, status: string)
    ensures var r := DoResponse(200, Readable(raw, Json(Ack(taskId, status))));
      && (taskId != "" ==> r == Accepted(taskId, raw))
      && (taskId == "" ==> r.Rejected? && r.error.localError && r.error.statusCode == 500
                           && r.error.code == "unmarshal_response_body_failed")
  {
    var a := Ack(taskId, status);
    var f := a.fields;
    var data := map["task_id" := Str(taskId), "status" := Str(status)];
    assert Member(f, "code") == Num(0) && Member(f, "message") == Str("success");
    assert Member(f, "data") == Obj(data) && Member(f, "url") == Null;
    assert Member(data, "task_id") == Str(taskId) && Member(data, "status") == Str(status);
    assert Member(data, "task_result") == Null;
    if taskId == "" {
      assert !DecodeEnvelope(Json(a)).Complete();
    }
  }

  // ---------------------------------------------------------------------
  // Task status
  // ---------------------------------------------------------------------

  /** The JSON form of a video. */
  function EncodeVideo(v: Video): Value {
    Obj(map["id" := Str(v.id), "url" := Str(v.url), "duration" := Str(v.duration)])
  }

  function EncodeVideos(vs: seq<Video>): (items: seq<Value>)
    ensures |items| == |vs|
    ensures forall i :: 0 <= i < |vs| ==> items[i] == EncodeVideo(vs[i])
  {
    if vs == [] then [] else [EncodeVideo(vs[0])] + EncodeVideos(vs[1..])
  }

  /** The JSON form of a reply's `data`: `status` and `videos` are
      `omitempty`; `task_result` is a struct, so it is always written. */
  function EncodeReplyData(d: ReplyData): (v: Value)
    ensures v.Obj? && "task_id" in v.fields && v.fields["task_id"] == Str(d.taskId)
  {
    var taskResult := Obj(if d.videos == [] then map[] else map["videos" := Arr(EncodeVideos(d.videos))]);
    if d.status == "" then Obj(map["task_id" := Str(d.taskId), "task_result" := taskResult])
    else Obj(map["task_id" := Str(d.taskId), "status" := Str(d.status), "task_result" := taskResult])
  }

  /** `json.Marshal(Response)`: `url` is `omitempty`. */
  function EncodeResponse(r: Response): (v: Value)
    ensures v.Obj? && "code" in v.fields && v.fields["code"] == Num(r.code)
  {
    if r.url == "" then
      Obj(map["code" := Num(r.code), "message" := Str(r.message), "data" := EncodeReplyData(r.data)])
    else
      Obj(map["code" := Num(r.code), "message" := Str(r.message), "data" := EncodeReplyData(r.data),
              "url" := Str(r.url)])
  }

  lemma {:induction false} VideosRoundTrip(vs: seq<Video>)
    ensures DecodeVideos(EncodeVideos(vs)) == Decoded(vs, None)
    decreases |vs|
  {
    if vs != [] {
      var v := vs[0];
      var f := map["id" := Str(v.id), "url" := Str(v.url), "duration" := Str(v.duration)];
      assert Member(f, "id") == Str(v.id) && Member(f, "url") == Str(v.url) && Member(f, "duration") == Str(v.duration);
      assert DecodeVideo(EncodeVideo(v)) == Decoded(v, None);
      assert EncodeVideos(vs)[1..] == EncodeVideos(vs[1..]);
      VideosRoundTrip(vs[1..]);
      assert vs == [v] + vs[1..];
    }
  }

  lemma ReplyDataRoundTrip(d: ReplyData)
    ensures DecodeReplyData(EncodeReplyData(d)) == Decoded(d, None)
  {
    var f := EncodeReplyData(d).fields;
    assert Member(f, "task_id") == Str(d.taskId);
    assert Member(f, "status") == (if d.status == "" then Null else Str(d.status));
    var result := f["task_result"].fields;
    assert Member(f, "task_result") == Obj(result);
    assert Member(result, "videos") == (if d.videos == [] then Null else Arr(EncodeVideos(d.videos)));
    VideosRoundTrip(d.videos);
  }

  /** Every synthesised reply decodes back to itself without error. */
  lemma ResponseRoundTrip(r: Response)
    requires MinInt <= r.code <= MaxInt
    ensures DecodeResponse(Json(EncodeResponse(r))) == Decoded(r, None)
  {
    var f := EncodeResponse(r).fields;
    assert Member(f, "code") == Num(r.code) && Member(f, "message") == Str(r.message);
    assert Member(f, "url") == (if r.url == "" then Null else Str(r.url));
    assert Member(f, "data") == EncodeReplyData(r.data);
    ReplyDataRoundTrip(r.data);
  }

  /** Kling-style word `FetchTask` writes for a status when there is no
      finished video. */
  function PendingWord(s: AT.TaskStatus): (w: string)
    ensures w == "processing" <==> s == AT.Processing
    ensures w == "failed" <==> s == AT.Failed
    ensures w == "submitted" <==> s != AT.Processing && s != AT.Failed
  {
    if s == AT.Queued then "submitted"
    else if s == AT.Processing then "processing"
    else if s == AT.Failed then "failed"
    else "submitted"
  }

  /** The reply `FetchTask` synthesises from a task result, given the word
      it uses for a finished task and `formatSeconds` for `%.0f`: a
      succeeded task with a URL becomes one video whose id is the task id
      and whose duration is the rounded metadata duration or "5"; anything
      else carries only the id and a status word. */
  function StatusReply(t: AT.TaskResult, succeededWord: string, formatSeconds: real -> string): (r: Response)
    ensures r.code == 0 && r.message == "success" && r.data.taskId == t.taskId
    ensures t.status == AT.Succeeded && t.url != "" ==>
      && r.data.status == succeededWord && r.url == t.url
      && |r.data.videos| == 1 && r.data.videos[0].id == t.taskId && r.data.videos[0].url == t.url
      && r.data.videos[0].duration == (if t.metadata.Some? then formatSeconds(t.metadata.value.duration) else "5")
    ensures !(t.status == AT.Succeeded && t.url != "") ==>
      r.data.status == PendingWord(t.status) && r.data.videos == [] && r.url == ""
  {
    if t.status == AT.Succeeded && t.url != "" then
      var duration := if t.metadata.Some? then formatSeconds(t.metadata.value.duration) else "5";
      Response(0, "success", ReplyData(t.taskId, succeededWord, [Video(t.taskId, t.url, duration)]), t.url)
    else
      Response(0, "success", ReplyData(t.taskId, PendingWord(t.status), []), "")
  }

  /** `FetchTask` as written: without a provider nothing happens; the base
      URL and key arguments are ignored in favour of the provider's own;
      the provider's task result becomes a 200 Kling-shaped reply, whose
      finished status is the word "succeeded". */
  function FetchTask(k: Adaptor, baseUrl: string, key: string, taskId: string, ex: Exchange<TaskReply>,
                     parseFloat: string -> Option<real>, formatSeconds: real -> string): (r: Result<MockReply>)
    ensures k.provider.None? ==> r == Err(Plain("provider not initialized"))
    ensures k.provider.Some? ==>
      var got := KP.GetGeneration(k.provider.value, taskId, ex, parseFloat);
      && (got.Err? ==> r == Err(Wrapped("failed to get task status: ", got.error)))
      && (got.Ok? ==> r == Ok(MockReply(200, EncodeResponse(StatusReply(got.value, "succeeded", formatSeconds)))))
  {
    if k.provider.None? then Err(Plain("provider not initialized"))
    else
      match KP.GetGeneration(k.provider.value, taskId, ex, parseFloat)
      case Err(e) => Err(Wrapped("failed to get task status: ", e))
      case Ok(t) => Ok(MockReply(200, EncodeResponse(StatusReply(t, "succeeded", formatSeconds))))
  }

  /** A finished task comes back from `FetchTask` with the status word
      "succeeded", which Kling's own vocabulary (as the provider reads it)
      takes for a queued task. */
  lemma FetchTaskLosesSuccess(t: AT.TaskResult, formatSeconds: real -> string)
    requires t.status == AT.Succeeded && t.url != ""
    ensures KP.ConvertStatus(StatusReply(t, "succeeded", formatSeconds).data.status) == AT.Queued
  {
  }

  /** `FetchTask` as evidently intended: a finished task is reported with
      Kling's own word for it. */
  function FetchTaskIntended(k: Adaptor, baseUrl: string, key: string, taskId: string, ex: Exchange<TaskReply>,
                             parseFloat: string -> Option<real>, formatSeconds: real -> string): (r: Result<MockReply>)
    ensures k.provider.None? ==> r == Err(Plain("provider not initialized"))
    ensures k.provider.Some? ==>
      var got := KP.GetGeneration(k.provider.value, taskId, ex, parseFloat);
      && (got.Err? ==> r == Err(Wrapped("failed to get task status: ", got.error)))
      && (got.Ok? ==> r == Ok(MockReply(200, EncodeResponse(StatusReply(got.value, KP.KlingStatus(AT.Succeeded), formatSeconds)))))
  {
    if k.provider.None? then Err(Plain("provider not initialized"))
    else
      match KP.GetGeneration(k.provider.value, taskId, ex, parseFloat)
      case Err(e) => Err(Wrapped("failed to get task status: ", e))
      case Ok(t) => Ok(MockReply(200, EncodeResponse(StatusReply(t, KP.KlingStatus(AT.Succeeded), formatSeconds))))
  }

  /** With the intended word, reading the synthesised reply back and
      mapping its status through Kling's vocabulary gives the provider's
      status, except that a succeeded task without a URL is still reported
      as submitted. */
  lemma IntendedStatusRoundTrip(k: Adaptor, taskId: string, ex: Exchange<TaskReply>,
                                parseFloat: string -> Option<real>, formatSeconds: real -> string)
    requires k.provider.Some? && FetchTaskIntended(k, "", "", taskId, ex, parseFloat, formatSeconds).Ok?
    ensures var t := KP.GetGeneration(k.provider.value, taskId, ex, parseFloat).value;
      var reply := FetchTaskIntended(k, "", "", taskId, ex, parseFloat, formatSeconds).value;
      var back := DecodeResponse(Json(reply.body));
      && back.Complete()
      && (t.status != AT.Succeeded || t.url != "" ==> KP.ConvertStatus(back.value.data.status) == t.status)
      && (t.status == AT.Succeeded && t.url == "" ==> KP.ConvertStatus(back.value.data.status) == AT.Queued)
  {
    var t := KP.GetGeneration(k.provider.value, taskId, ex, parseFloat).value;
    ResponseRoundTrip(StatusReply(t, KP.KlingStatus(AT.Succeeded), formatSeconds));
  }
}
