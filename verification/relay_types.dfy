/** The relay protocol types. task_adaptor.go and
    adapters/kling/kling_adaptor.go each declare the same four types
    (relay info, adaptor error, submit request, generic response envelope);
    they are defined once here, with their JSON forms. */
module RelayTypes {
  import opened Options
  import opened Text
  import opened Json
  import Types

  /** `TaskRelayInfo`. */
  datatype RelayInfo = RelayInfo(channelType: int, baseUrl: string, apiKey: string, action: string)

  /** `TaskAdaptorError`; its `Error()` text is the message. */
  datatype TaskAdaptorError = TaskAdaptorError(statusCode: int, code: string, message: string, localError: bool)

  /** What a validation step yields: the request, or the adaptor error. */
  datatype Checked<+T> = Passed(value: T) | Refused(error: TaskAdaptorError)

  /** A reply body as `DoResponse` reads it: unreadable, or the bytes
      (`raw`) and how they parse. */
  datatype Payload = Unreadable(reason: string) | Readable(raw: string, doc: Doc)

  /** What `DoResponse` returns: a task id with the reply bytes, or an
      adaptor error. */
  datatype Outcome = Accepted(taskId: string, data: string) | Rejected(error: TaskAdaptorError)

  /** A locally raised adaptor error. */
  function LocalError(statusCode: int, code: string, message: string): (e: TaskAdaptorError)
    ensures e.localError && e.statusCode == statusCode && e.code == code && e.message == message
  {
    TaskAdaptorError(statusCode, code, message, true)
  }

  const KlingErrorPrefix := "kling_error_"

  /** The error code of a Kling failure in the relay's vocabulary
      (`kling_error_%d`): the Kling code can be read back from it. */
  function KlingErrorCode(code: int): (s: string)
    ensures |s| > |KlingErrorPrefix| && s[..|KlingErrorPrefix|] == KlingErrorPrefix
    ensures ParseInt(s[|KlingErrorPrefix|..]) == Some(code)
  {
    var s := KlingErrorPrefix + IntToString(code);
    assert s[|KlingErrorPrefix|..] == IntToString(code);
    IntToStringRoundTrip(code);
    s
  }

  /** `VidgoSubmitReq`. The metadata map holds decoded JSON values. */
  datatype SubmitRequest = SubmitRequest(
    prompt: string,
    model: string,
    mode: string,
    image: string,
    size: string,
    duration: int,
    metadata: map<string, Value>)

  /** A `map[string]interface{}` field: an object's members as they are, a
      null as an empty map. */
  function AnyMapField(v: Value, path: string): (r: Decoded<map<string, Value>>)
    ensures r.Complete() <==> v.Null? || v.Obj?
    ensures v.Obj? ==> r.value == v.fields
    ensures !v.Obj? ==> r.value == map[]
    ensures !r.Complete() ==> r.issue == Some(Mismatch(path))
  {
    StructMembers(v, path)
  }

  /** `json.Unmarshal(body, &VidgoSubmitReq{})`. */
  function DecodeSubmit(d: Doc): (r: Decoded<SubmitRequest>)
    ensures d.Malformed? ==> r == Decoded(SubmitRequest("", "", "", "", "", 0, map[]), Some(Syntax(d.reason)))
    ensures d.Json? && d.root.Null? ==> r == Decoded(SubmitRequest("", "", "", "", "", 0, map[]), None)
    ensures d.Json? && d.root.Obj? ==>
      var f := d.root.fields;
      && r.value.prompt == StringField(Member(f, "prompt"), "").value
      && r.value.model == StringField(Member(f, "model"), "").value
      && r.value.mode == StringField(Member(f, "mode"), "").value
      && r.value.image == StringField(Member(f, "image"), "").value
      && r.value.size == StringField(Member(f, "size"), "").value
      && r.value.duration == IntField(Member(f, "duration"), "").value
      && r.value.metadata == AnyMapField(Member(f, "metadata"), "").value
    ensures r.Complete() ==> d.Json? && (d.root.Null? || d.root.Obj?)
    ensures d.Json? && d.root.Obj? ==>
      var f := d.root.fields;
      r.Complete() <==>
        && StringField(Member(f, "prompt"), "").Complete() && StringField(Member(f, "model"), "").Complete()
        && StringField(Member(f, "mode"), "").Complete() && StringField(Member(f, "image"), "").Complete()
        && StringField(Member(f, "size"), "").Complete() && IntField(Member(f, "duration"), "").Complete()
        && AnyMapField(Member(f, "metadata"), "").Complete()
  {
    var top := DocMembers(d, "VidgoSubmitReq");
    var f := top.value;
    var prompt := StringField(Member(f, "prompt"), "VidgoSubmitReq.prompt");
    var model := StringField(Member(f, "model"), "VidgoSubmitReq.model");
    var mode := StringField(Member(f, "mode"), "VidgoSubmitReq.mode");
    var image := StringField(Member(f, "image"), "VidgoSubmitReq.image");
    var size := StringField(Member(f, "size"), "VidgoSubmitReq.size");
    var duration := IntField(Member(f, "duration"), "VidgoSubmitReq.duration");
    var metadata := AnyMapField(Member(f, "metadata"), "VidgoSubmitReq.metadata");
    Decoded(SubmitRequest(prompt.value, model.value, mode.value, image.value, size.value,
                          duration.value, metadata.value),
            First(top.issue, First(prompt.issue, First(model.issue, First(mode.issue,
              First(image.issue, First(size.issue, First(duration.issue, metadata.issue))))))))
  }

  const SubmitKeys: set<string> := {"prompt", "model", "mode", "image", "size", "duration", "metadata"}

  /** Whether `json.Marshal` writes member `key`: the prompt always, the
      `omitempty` fields only when they are not their zero value. */
  predicate Emitted(r: SubmitRequest, key: string) {
    || key == "prompt"
    || (key == "model" && r.model != "")
    || (key == "mode" && r.mode != "")
    || (key == "image" && r.image != "")
    || (key == "size" && r.size != "")
    || (key == "duration" && r.duration != 0)
    || (key == "metadata" && r.metadata != map[])
  }

  /** The JSON form of field `key`. */
  function FieldValue(r: SubmitRequest, key: string): Value {
    if key == "prompt" then Str(r.prompt)
    else if key == "model" then Str(r.model)
    else if key == "mode" then Str(r.mode)
    else if key == "image" then Str(r.image)
    else if key == "size" then Str(r.size)
    else if key == "duration" then Num(r.duration)
    else Obj(r.metadata)
  }

  /** `json.Marshal(VidgoSubmitReq)`. */
  function EncodeSubmit(r: SubmitRequest): (v: Value)
    ensures v.Obj? && v.fields.Keys <= SubmitKeys
    ensures forall k :: k in SubmitKeys ==> (k in v.fields <==> Emitted(r, k))
    ensures forall k :: k in v.fields ==> v.fields[k] == FieldValue(r, k)
  {
    Obj(map k | k in SubmitKeys && Emitted(r, k) :: FieldValue(r, k))
  }

  /** Encoding a request and decoding the bytes gives the request back,
      without error: empty fields that were left out decode to the same
      zero values. */
  lemma SubmitRoundTrip(r: SubmitRequest)
    requires MinInt <= r.duration <= MaxInt
    ensures DecodeSubmit(Json(EncodeSubmit(r))) == Decoded(r, None)
  {
    StringMembersDecode(r);
    OtherMembersDecode(r);
  }

  /** The five string members of an encoded request decode cleanly to
      the request's strings. */
  lemma StringMembersDecode(r: SubmitRequest)
    ensures var f := EncodeSubmit(r).fields;
      && StringField(Member(f, "prompt"), "VidgoSubmitReq.prompt") == Decoded(r.prompt, None)
      && StringField(Member(f, "model"), "VidgoSubmitReq.model") == Decoded(r.model, None)
      && StringField(Member(f, "mode"), "VidgoSubmitReq.mode") == Decoded(r.mode, None)
      && StringField(Member(f, "image"), "VidgoSubmitReq.image") == Decoded(r.image, None)
      && StringField(Member(f, "size"), "VidgoSubmitReq.size") == Decoded(r.size, None)
  {
    EncodedMembers(r);
  }

  /** The duration and metadata members decode cleanly too, the duration
      because it is within the integer range. */
  lemma OtherMembersDecode(r: SubmitRequest)
    requires MinInt <= r.duration <= MaxInt
    ensures var f := EncodeSubmit(r).fields;
      && IntField(Member(f, "duration"), "VidgoSubmitReq.duration") == Decoded(r.duration, None)
      && AnyMapField(Member(f, "metadata"), "VidgoSubmitReq.metadata") == Decoded(r.metadata, None)
  {
    EncodedMembers(r);
  }

  /** Each member of an encoded request: the field's JSON form when it is
      written, absent (read as null) when it is not. */
  lemma EncodedMembers(r: SubmitRequest)
    ensures var f := EncodeSubmit(r).fields;
      && Member(f, "prompt") == Str(r.prompt)
      && Member(f, "model") == (if r.model != "" then Str(r.model) else Null)
      && Member(f, "mode") == (if r.mode != "" then Str(r.mode) else Null)
      && Member(f, "image") == (if r.image != "" then Str(r.image) else Null)
      && Member(f, "size") == (if r.size != "" then Str(r.size) else Null)
      && Member(f, "duration") == (if r.duration != 0 then Num(r.duration) else Null)
      && Member(f, "metadata") == (if r.metadata != map[] then Obj(r.metadata) else Null)
  {
    var f := EncodeSubmit(r).fields;
    assert "prompt" in SubmitKeys && "model" in SubmitKeys && "mode" in SubmitKeys && "image" in SubmitKeys;
    assert "size" in SubmitKeys && "duration" in SubmitKeys && "metadata" in SubmitKeys;
  }

  /** A request's metadata seen as the SDK's metadata map: strings stay
      strings, every other JSON value is an opaque non-string. */
  function Metadata(m: map<string, Value>): (r: map<string, Types.Value>)
    ensures r.Keys == m.Keys
    ensures forall k :: k in m ==> (r[k].Str? <==> m[k].Str?)
    ensures forall k :: k in m && m[k].Str? ==> r[k] == Types.Str(m[k].s)
  {
    map k | k in m :: if m[k].Str? then Types.Str(m[k].s) else Types.NonString
  }

  /** `TaskResponse[string]`: a string code, a message and string data. */
  datatype Envelope = Envelope(code: string, message: string, data: string) {
    /** `IsSuccess`: the code is exactly "success". */
    predicate IsSuccess() { code == "success" }
  }

  /** `json.Unmarshal(body, &TaskResponse[string]{})`. */
  function DecodeEnvelope(d: Doc): (r: Decoded<Envelope>)
    ensures d.Malformed? ==> r == Decoded(Envelope("", "", ""), Some(Syntax(d.reason)))
    ensures d.Json? && d.root.Null? ==> r == Decoded(Envelope("", "", ""), None)
    ensures d.Json? && d.root.Obj? ==>
      var f := d.root.fields;
      && r.value.code == StringField(Member(f, "code"), "").value
      && r.value.message == StringField(Member(f, "message"), "").value
      && r.value.data == StringField(Member(f, "data"), "").value
    ensures r.Complete() ==> d.Json? && (d.root.Null? || d.root.Obj?)
    ensures d.Json? && d.root.Obj? ==>
      var f := d.root.fields;
      r.Complete() <==>
        && StringField(Member(f, "code"), "").Complete() && StringField(Member(f, "message"), "").Complete()
        && StringField(Member(f, "data"), "").Complete()
  {
    var top := DocMembers(d, "TaskResponse[string]");
    var f := top.value;
    var code := StringField(Member(f, "code"), "TaskResponse[string].code");
    var message := StringField(Member(f, "message"), "TaskResponse[string].message");
    var data := StringField(Member(f, "data"), "TaskResponse[string].data");
    Decoded(Envelope(code.value, message.value, data.value),
            First(top.issue, First(code.issue, First(message.issue, data.issue))))
  }

  /** The JSON object a server sends for an envelope. */
  function EnvelopeJson(e: Envelope): Value {
    Obj(map["code" := Str(e.code), "message" := Str(e.message), "data" := Str(e.data)])
  }

  /** Decoding the JSON of an envelope gives the envelope back, without
      error. */
  lemma EnvelopeRoundTrip(e: Envelope)
    ensures DecodeEnvelope(Json(EnvelopeJson(e))) == Decoded(e, None)
  {
    var f := EnvelopeJson(e).fields;
    assert Member(f, "code") == Str(e.code) && Member(f, "message") == Str(e.message);
    assert Member(f, "data") == Str(e.data);
  }

  /** A decoded envelope reports success only when the body's code member
      is the string "success". */
  lemma EnvelopeSuccessNeedsStringCode(d: Doc)
    requires DecodeEnvelope(d).value.IsSuccess()
    ensures d.Json? && d.root.Obj? && Member(d.root.fields, "code") == Str("success")
  {
  }
}
