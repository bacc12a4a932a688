/** The relay adaptor of the `vidgo` package (kling_adaptor.go): it turns a
    relayed submit request into a Kling HTTP call, reads Kling's reply, and
    builds the task-status query. The adaptor's state is a value; methods
    that mutate the Go receiver return the new state. */
module RootRelay {
  import opened Options
  import opened Text
  import opened Json
  import opened KlingWire
  import opened RelayTypes
  import Types
  import KP = KlingProvider

  const DefaultBaseUrl := "https://api.klingai.com"
  const GenerationPath := "/v1/videos/image2video"
  const DefaultModelName := "kling-v1"
  const ChannelName := "kling"
  const RequestTimeout: Types.Duration := 30 * Types.Second
  const FetchTimeout: Types.Duration := 15 * Types.Second

  /** `KlingAdaptor`; `NewKlingAdaptor` gives `Fresh()`. */
  datatype Adaptor = Adaptor(channelType: int, accessKey: string, secretKey: string, baseUrl: string)

  function Fresh(): Adaptor {
    Adaptor(0, "", "", "")
  }

  /** The adaptor after `Init`, and the relay info, whose base URL `Init`
      fills in. */
  datatype Initialised = Initialised(adaptor: Adaptor, info: RelayInfo)

  /** `Init`: copies the channel type, defaults and records the base URL
      (writing it back into the info), and takes the keys from an
      `access,secret` API key; any other key leaves the previous keys in
      place. */
  function Init(k: Adaptor, info: RelayInfo): (r: Initialised)
    ensures r.info == info.(baseUrl := if info.baseUrl == "" then DefaultBaseUrl else info.baseUrl)
    ensures r.adaptor.channelType == info.channelType
    ensures r.adaptor.baseUrl == r.info.baseUrl != ""
    ensures SplitApiKey(info.apiKey).Some? ==>
      SplitApiKey(info.apiKey) == Some(KeyPair(r.adaptor.accessKey, r.adaptor.secretKey))
    ensures SplitApiKey(info.apiKey).None? ==>
      r.adaptor.accessKey == k.accessKey && r.adaptor.secretKey == k.secretKey
  {
    var base := if info.baseUrl == "" then DefaultBaseUrl else info.baseUrl;
    var keys := SplitApiKey(info.apiKey).GetOr(KeyPair(k.accessKey, k.secretKey));
    Initialised(Adaptor(info.channelType, keys.access, keys.secret, base), info.(baseUrl := base))
  }

  /** Initialising twice with the same info is initialising once. */
  lemma InitIdempotent(k: Adaptor, info: RelayInfo)
    ensures var once := Init(k, info);
      Init(once.adaptor, once.info) == once
  {
  }

  /** `GetModelList`. */
  function ModelList(): (models: seq<string>)
    ensures models == KP.Models
  {
    ["kling-v1", "kling-v1-6", "kling-v2-master"]
  }

  /** `actionValidate`: the action must be "generate", the prompt
      non-empty and an explicit model one of the listed ones, checked in
      that order. `None` is success. */
  function ActionValidate(req: SubmitRequest, action: string): (r: Option<string>)
    ensures r.None? <==> action == "generate" && req.prompt != "" && (req.model == "" || req.model in ModelList())
    ensures action != "generate" ==> r == Some("unsupported action: " + action)
    ensures action == "generate" && req.prompt == "" ==> r == Some("prompt is required")
    ensures action == "generate" && req.prompt != "" && req.model != "" && req.model !in ModelList() ==>
      r == Some("unsupported model: " + req.model)
  {
    if action != "generate" then Some("unsupported action: " + action)
    else if req.prompt == "" then Some("prompt is required")
    else if req.model != "" && req.model !in ModelList() then Some("unsupported model: " + req.model)
    else None
  }

  /** `ValidateRequestAndSetAction`: the action is lower-cased, the body
      decoded, and the request checked; every failure is a local 400
      "invalid_request". The request passes through unchanged. */
  function ValidateRequestAndSetAction(body: Doc, action: string): (r: Checked<SubmitRequest>)
    ensures r.Passed? <==> DecodeSubmit(body).Complete() && ActionValidate(DecodeSubmit(body).value, ToLower(action)).None?
    ensures r.Passed? ==> r.value == DecodeSubmit(body).value
    ensures r.Refused? ==> r.error.statusCode == 400 && r.error.code == "invalid_request" && r.error.localError
    ensures !DecodeSubmit(body).Complete() ==>
      r.error.message == "Failed to parse request: " + IssueText(DecodeSubmit(body).issue.value)
    ensures DecodeSubmit(body).Complete() && r.Refused? ==>
      r.error.message == ActionValidate(DecodeSubmit(body).value, ToLower(action)).value
  {
    var decoded := DecodeSubmit(body);
    if !decoded.Complete() then
      Refused(LocalError(400, "invalid_request", "Failed to parse request: " + IssueText(decoded.issue.value)))
    else
      match ActionValidate(decoded.value, ToLower(action))
      case Some(message) => Refused(LocalError(400, "invalid_request", message))
      case None => Passed(decoded.value)
  }

  /** The case of the action does not matter. */
  lemma ActionCaseInsensitive(body: Doc, action: string)
    ensures ValidateRequestAndSetAction(body, action) == ValidateRequestAndSetAction(body, ToLower(action))
  {
    ToLowerIdempotent(action);
  }

  /** `BuildRequestURL`: the generation endpoint under the recorded base
      URL; it never fails. */
  function BuildRequestURL(k: Adaptor): (url: string)
    ensures url == k.baseUrl + GenerationPath
    ensures |url| >= |GenerationPath| && url[|url| - |GenerationPath|..] == GenerationPath
  {
    k.baseUrl + GenerationPath
  }

  /** `createJWTTokenWithKeys`: a token needs both keys non-empty; signing
      itself cannot fail. */
  function TokenWithKeys(accessKey: string, secretKey: string, now: int): (r: Option<Credential>)
    ensures r.Some? <==> accessKey != "" && secretKey != ""
    ensures r.Some? ==> r.value == SignedToken(accessKey, secretKey, now)
  {
    if accessKey == "" || secretKey == "" then None else Some(SignedToken(accessKey, secretKey, now))
  }

  /** `createJWTTokenWithKey`: the key must split into an `access,secret`
      pair whose trimmed halves are both non-empty. */
  function TokenWithKey(apiKey: string, now: int): (r: Option<Credential>)
    ensures r.Some? <==> SplitApiKey(apiKey).Some? && SplitApiKey(apiKey).value.access != ""
                         && SplitApiKey(apiKey).value.secret != ""
    ensures r.Some? ==> r.value.Signed? && r.value.claims.iss == SplitApiKey(apiKey).value.access
                        && r.value.secret == SplitApiKey(apiKey).value.secret
  {
    match SplitApiKey(apiKey)
    case None => None
    case Some(keys) => TokenWithKeys(keys.access, keys.secret, now)
  }

  /** The bearer credential: a token when one can be made, else the raw
      API key. */
  function BearerOrKey(token: Option<Credential>, apiKey: string): (c: Credential)
    ensures token.Some? ==> c == token.value
    ensures token.None? ==> c == Literal(apiKey)
  {
    match token
    case Some(t) => t
    case None => Literal(apiKey)
  }

  /** `BuildRequestHeader`: JSON content and accept types, the agent, and
      a bearer token from the adaptor's keys, or the raw API key when they
      cannot make one. */
  function BuildRequestHeader(k: Adaptor, info: RelayInfo, now: int): (h: map<string, HeaderValue>)
    ensures h.Keys == {"Content-Type", "Accept", "Authorization", "User-Agent"}
    ensures h["Authorization"] == Bearer(BearerOrKey(TokenWithKeys(k.accessKey, k.secretKey, now), info.apiKey))
    ensures h["Content-Type"] == h["Accept"] == Text(JsonType)
    ensures h["User-Agent"] == Text(UserAgent)
  {
    map["Content-Type" := Text(JsonType), "Accept" := Text(JsonType),
        "Authorization" := Bearer(BearerOrKey(TokenWithKeys(k.accessKey, k.secretKey, now), info.apiKey)),
        "User-Agent" := Text(UserAgent)]
  }

  /** `getAspectRatio`: the six known frame sizes by name; any other size
      is square. */
  function SizeAspectRatio(size: string): (r: string)
    ensures r == "16:9" <==> size == "1280x720" || size == "1920x1080"
    ensures r == "9:16" <==> size == "720x1280" || size == "1080x1920"
    ensures r == "1:1" <==> r != "16:9" && r != "9:16"
  {
    match size
    case "1024x1024" => "1:1"
    case "512x512" => "1:1"
    case "1280x720" => "16:9"
    case "1920x1080" => "16:9"
    case "720x1280" => "9:16"
    case "1080x1920" => "9:16"
    case _ => "1:1"
  }

  /** `convertToKlingRequest`: prompt, image and model copied; the mode
      from a non-empty string `mode` metadata entry or "std" (the request's
      own mode field is not consulted); "10" only for ten seconds; the ratio
      from the size name; an empty model leaves the model empty but names
      the default model. */
  function ConvertRequest(req: SubmitRequest): (k: KP.KlingRequest)
    ensures k.prompt == req.prompt && k.image == req.image && k.model == req.model
    ensures k.mode == NonEmptyStringMember(req.metadata, "mode").GetOr("std")
    ensures k.duration == (if req.duration == 10 then "10" else "5")
    ensures k.aspectRatio == SizeAspectRatio(req.size)
    ensures k.modelName == (if req.model == "" then DefaultModelName else req.model)
    ensures k.cfgScale == 0.5
  {
    KP.KlingRequest(req.prompt, req.image,
                    NonEmptyStringMember(req.metadata, "mode").GetOr("std"),
                    if req.duration == 10 then "10" else "5",
                    SizeAspectRatio(req.size),
                    req.model,
                    if req.model == "" then DefaultModelName else req.model,
                    0.5)
  }

  /** The converted request never depends on the request's `mode` field. */
  lemma ModeFieldIgnored(req: SubmitRequest, mode: string)
    ensures ConvertRequest(req.(mode := mode)) == ConvertRequest(req)
  {
  }

  /** The POST that `BuildRequestBody` and `DoRequest` send; marshalling
      the Kling request cannot fail. */
  function GenerationCall(k: Adaptor, info: RelayInfo, req: SubmitRequest, now: int): (o: Outbound<KP.KlingRequest>)
    ensures o.httpMethod == "POST" && o.url == BuildRequestURL(k)
    ensures o.headers == BuildRequestHeader(k, info, now)
    ensures o.body == Some(ConvertRequest(req)) && o.timeout == RequestTimeout
  {
    Outbound("POST", BuildRequestURL(k), BuildRequestHeader(k, info, now), Some(ConvertRequest(req)), RequestTimeout)
  }

  // ---------------------------------------------------------------------
  // Replies
  // ---------------------------------------------------------------------

  /** `KlingResponse`: an integer code, a message and the task id. */
  datatype KlingReply = KlingReply(code: int, message: string, taskId: string)

  /** `json.Unmarshal(body, &KlingResponse{})`. */
  function DecodeKling(d: Doc): (r: Decoded<KlingReply>)
    ensures d.Malformed? ==> r == Decoded(KlingReply(0, "", ""), Some(Syntax(d.reason)))
    ensures d.Json? && d.root.Null? ==> r == Decoded(KlingReply(0, "", ""), None)
    ensures d.Json? && d.root.Obj? ==>
      var f := d.root.fields;
      var data := StructMembers(Member(f, "data"), "");
      && r.value.code == IntField(Member(f, "code"), "").value
      && r.value.message == StringField(Member(f, "message"), "").value
      && r.value.taskId == StringField(Member(data.value, "task_id"), "").value
    ensures r.Complete() ==> d.Json? && (d.root.Null? || d.root.Obj?)
    ensures d.Json? && d.root.Obj? ==>
      var f := d.root.fields;
      var data := StructMembers(Member(f, "data"), "");
      r.Complete() <==>
        && IntField(Member(f, "code"), "").Complete() && StringField(Member(f, "message"), "").Complete()
        && data.Complete() && StringField(Member(data.value, "task_id"), "").Complete()
  {
    var top := DocMembers(d, "KlingResponse");
    var f := top.value;
    var code := IntField(Member(f, "code"), "KlingResponse.code");
    var message := StringField(Member(f, "message"), "KlingResponse.message");
    var data := StructMembers(Member(f, "data"), "KlingResponse.data");
    var taskId := StringField(Member(data.value, "task_id"), "KlingResponse.data.task_id");
    Decoded(KlingReply(code.value, message.value, taskId.value),
            First(top.issue, First(code.issue, First(message.issue, First(data.issue, taskId.issue)))))
  }

  /** The JSON object Kling sends for a reply. */
  function KlingJson(k: KlingReply): Value {
    Obj(map["code" := Num(k.code), "message" := Str(k.message),
            "data" := Obj(map["task_id" := Str(k.taskId)])])
  }

  /** Decoding the JSON of a Kling reply gives the reply back, without
      error, whenever its code fits in 64 bits. */
  lemma KlingRoundTrip(k: KlingReply)
    requires MinInt <= k.code <= MaxInt
    ensures DecodeKling(Json(KlingJson(k))) == Decoded(k, None)
  {
    var f := KlingJson(k).fields;
    assert Member(f, "code") == Num(k.code) && Member(f, "message") == Str(k.message);
    assert Member(f, "data") == Obj(map["task_id" := Str(k.taskId)]);
    assert Member(map["task_id" := Str(k.taskId)], "task_id") == Str(k.taskId);
  }

  /** `DoResponse` as written: a Kling success (fully decoded, code 0)
      gives its task id; otherwise the body must decode as the generic
      envelope, whose non-success code is passed on with the HTTP status;
      a Kling error code is checked only after that. */
  function DoResponse(statusCode: int, body: Payload): (r: Outcome)
    ensures body.Unreadable? ==> r == Rejected(LocalError(500, "read_response_body_failed", body.reason))
    ensures body.Readable? && DecodeKling(body.doc).Complete() && DecodeKling(body.doc).value.code == 0 ==>
      r == Accepted(DecodeKling(body.doc).value.taskId, body.raw)
    ensures body.Readable? && !(DecodeKling(body.doc).Complete() && DecodeKling(body.doc).value.code == 0) ==>
      var generic := DecodeEnvelope(body.doc);
      && (!generic.Complete() ==>
            r == Rejected(LocalError(500, "unmarshal_response_body_failed",
                                     "body: " + body.raw + ": " + IssueText(generic.issue.value))))
      && (generic.Complete() && !generic.value.IsSuccess() ==>
            r == Rejected(TaskAdaptorError(statusCode, generic.value.code, generic.value.message, false)))
      && (generic.Complete() && generic.value.IsSuccess() ==> r == Accepted(generic.value.data, body.raw))
    ensures r.Rejected? && !r.error.localError ==> r.error.statusCode == statusCode
    ensures r.Rejected? && r.error.localError ==>
      r.error.statusCode == 500
      && (r.error.code == "read_response_body_failed" || r.error.code == "unmarshal_response_body_failed")
  {
    match body
    case Unreadable(reason) => Rejected(LocalError(500, "read_response_body_failed", reason))
    case Readable(raw, doc) =>
      var kling := DecodeKling(doc);
      if kling.Complete() && kling.value.code == 0 then Accepted(kling.value.taskId, raw)
      else
        var generic := DecodeEnvelope(doc);
        EnvelopeSuccessKlingCodeZero(doc);
        if !generic.Complete() then
          Rejected(LocalError(500, "unmarshal_response_body_failed",
                              "body: " + raw + ": " + IssueText(generic.issue.value)))
        else if !generic.value.IsSuccess() then
          Rejected(TaskAdaptorError(statusCode, generic.value.code, generic.value.message, false))
        else if kling.value.code != 0 then
          Rejected(TaskAdaptorError(statusCode, KlingErrorCode(kling.value.code), kling.value.message, false))
        else Accepted(generic.value.data, raw)
  }

  /** When the generic envelope decodes cleanly with a success code, the
      body's `code` is a string, so the Kling decoding leaves its integer
      code at zero. */
  lemma EnvelopeSuccessKlingCodeZero(d: Doc)
    ensures DecodeEnvelope(d).Complete() && DecodeEnvelope(d).value.IsSuccess() ==> DecodeKling(d).value.code == 0
  {
    if DecodeEnvelope(d).Complete() && DecodeEnvelope(d).value.IsSuccess() {
      EnvelopeSuccessNeedsStringCode(d);
    }
  }

  /** The `kling_error_<code>` branch is dead: the generic envelope
      decodes cleanly with a success code only when the body's `code` is
      the string "success", and then the Kling decoding reads code 0. So a
      non-local rejection always carries the envelope's own, non-success
      code. */
  lemma KlingErrorBranchDead(statusCode: int, body: Payload)
    ensures var r := DoResponse(statusCode, body);
      r.Rejected? && !r.error.localError ==>
        r.error.code != "success" && r.error.code == DecodeEnvelope(body.doc).value.code
  {
    if body.Readable? {
      var generic := DecodeEnvelope(body.doc);
      if generic.Complete() && generic.value.IsSuccess() {
        EnvelopeSuccessNeedsStringCode(body.doc);
        assert DecodeKling(body.doc).value.code == 0;
      }
    }
  }

  /** A typical Kling error reply (an object with a non-zero integer code)
      never reaches the Kling error branch: it is reported as a local 500
      decoding failure of the generic envelope. */
  lemma VendorErrorBecomesDecodeFailure(statusCode: int, raw: string, fields: map<string, Value>)
    requires "code" in fields && fields["code"].Num? && fields["code"].n != 0
    ensures var r := DoResponse(statusCode, Readable(raw, Json(Obj(fields))));
      && r.Rejected? && r.error.localError && r.error.statusCode == 500
      && r.error.code == "unmarshal_response_body_failed"
  {
    var generic := DecodeEnvelope(Json(Obj(fields)));
    assert !generic.Complete();
  }

  /** `DoResponse` as evidently intended: a fully decoded Kling reply with
      a non-zero code is reported as that Kling error, with the HTTP status,
      before the generic envelope is tried. */
  function DoResponseIntended(statusCode: int, body: Payload): (r: Outcome)
    ensures body.Readable? && DecodeKling(body.doc).Complete() && DecodeKling(body.doc).value.code != 0 ==>
      r == Rejected(TaskAdaptorError(statusCode, KlingErrorCode(DecodeKling(body.doc).value.code),
                                     DecodeKling(body.doc).value.message, false))
    ensures !(body.Readable? && DecodeKling(body.doc).Complete() && DecodeKling(body.doc).value.code != 0) ==>
      r == DoResponse(statusCode, body)
  {
    match body
    case Unreadable(_) => DoResponse(statusCode, body)
    case Readable(raw, doc) =>
      var kling := DecodeKling(doc);
      if kling.Complete() && kling.value.code != 0 then
        Rejected(TaskAdaptorError(statusCode, KlingErrorCode(kling.value.code), kling.value.message, false))
      else DoResponse(statusCode, body)
  }

  /** With the intended order a Kling error reply keeps its code: a
      reply `{"code": c, "message": m}` with `c` non-zero is the remote
      error `kling_error_<c>` carrying `m`. */
  lemma IntendedKeepsVendorError(statusCode: int, raw: string, c: int, m: string)
    requires c != 0 && MinInt <= c <= MaxInt
    ensures var r := DoResponseIntended(statusCode, Readable(raw, Json(Obj(map["code" := Num(c), "message" := Str(m)]))));
      r == Rejected(TaskAdaptorError(statusCode, KlingErrorCode(c), m, false))
  {
    var f := map["code" := Num(c), "message" := Str(m)];
    assert Member(f, "code") == Num(c) && Member(f, "message") == Str(m) && Member(f, "data") == Null;
  }

  /** `FetchTask`: a bodiless GET on the task under the given base URL (or
      the default), with a 15-second deadline, authorised by a token made
      from the given key or, failing that, by the key itself. */
  function FetchTask(baseUrl: string, key: string, taskId: string, now: int): (o: Outbound<KP.KlingRequest>)
    ensures o.httpMethod == "GET" && o.body.None? && o.timeout == FetchTimeout
    ensures o.url == (if baseUrl == "" then DefaultBaseUrl else baseUrl) + GenerationPath + "/" + taskId
    ensures o.headers.Keys == {"Accept", "Authorization", "User-Agent"}
    ensures o.headers["Authorization"] == Bearer(BearerOrKey(TokenWithKey(key, now), key))
    ensures o.headers["Accept"] == Text(JsonType) && o.headers["User-Agent"] == Text(UserAgent)
  {
    var base := if baseUrl == "" then DefaultBaseUrl else baseUrl;
    Outbound("GET", base + GenerationPath + "/" + taskId,
             map["Accept" := Text(JsonType),
                 "Authorization" := Bearer(BearerOrKey(TokenWithKey(key, now), key)),
                 "User-Agent" := Text(UserAgent)],
             None, FetchTimeout)
  }
}
