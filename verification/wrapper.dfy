/** `adapterWrapper` (adapter_wrapper.go): presents an `adapters.Provider`
    as a `vidgo.Provider` by copying values field for field between the two
    packages' types. Errors pass through untouched. */
module Wrapper {
  import opened Options
  import opened Errors
  import opened KlingWire
  import T = Types
  import AT = AdapterTypes
  import P = Providers

  /** The request as the adapters package sees it. */
  function ToAdapterRequest(req: T.GenerationRequest): (a: AT.GenerationRequest)
    ensures a.prompt == req.prompt && a.image == req.image && a.style == req.style
    ensures a.duration == req.duration && a.fps == req.fps && a.width == req.width && a.height == req.height
    ensures a.responseFormat == req.responseFormat && a.qualityLevel == req.qualityLevel
    ensures a.seed == req.seed && a.model == req.model && a.metadata == req.metadata
  {
    AT.GenerationRequest(req.prompt, req.image, req.style, req.duration, req.fps, req.width, req.height,
                         req.responseFormat, req.qualityLevel, req.seed, req.model, req.metadata)
  }

  /** The reverse copy, from the adapters package's request type. */
  function FromAdapterRequest(a: AT.GenerationRequest): T.GenerationRequest {
    T.GenerationRequest(a.prompt, a.image, a.style, a.duration, a.fps, a.width, a.height,
                        a.responseFormat, a.qualityLevel, a.seed, a.model, a.metadata)
  }

  /** The copy loses nothing, in either direction. */
  lemma RequestCopyRoundTrip(req: T.GenerationRequest, a: AT.GenerationRequest)
    ensures FromAdapterRequest(ToAdapterRequest(req)) == req
    ensures ToAdapterRequest(FromAdapterRequest(a)) == a
  {
  }

  /** The task result as the `vidgo` package sees it: the four scalar
      fields, and metadata and error copied exactly when present. */
  function FromAdapterResult(r: AT.TaskResult): (v: T.TaskResult)
    ensures v.taskId == r.taskId && v.status == r.status && v.url == r.url && v.format == r.format
    ensures v.metadata.Some? <==> r.metadata.Some?
    ensures v.metadata.Some? ==>
      var m := r.metadata.value;
      v.metadata.value == T.Metadata(m.duration, m.fps, m.width, m.height, m.seed, m.format)
    ensures v.error.Some? <==> r.error.Some?
    ensures v.error.Some? ==> v.error.value == T.TaskError(r.error.value.code, r.error.value.message)
  {
    var metadata := match r.metadata
      case None => None
      case Some(m) => Some(T.Metadata(m.duration, m.fps, m.width, m.height, m.seed, m.format));
    var error := match r.error
      case None => None
      case Some(e) => Some(T.TaskError(e.code, e.message));
    T.TaskResult(r.taskId, r.status, r.url, r.format, metadata, error)
  }

  /** The reverse copy of a task result. */
  function ToAdapterResult(v: T.TaskResult): AT.TaskResult {
    var metadata := match v.metadata
      case None => None
      case Some(m) => Some(AT.Metadata(m.duration, m.fps, m.width, m.height, m.seed, m.format));
    var error := match v.error
      case None => None
      case Some(e) => Some(AT.TaskError(e.code, e.message));
    AT.TaskResult(v.taskId, v.status, v.url, v.format, metadata, error)
  }

  /** Copying a task result loses nothing. */
  lemma ResultCopyRoundTrip(r: AT.TaskResult)
    ensures ToAdapterResult(FromAdapterResult(r)) == r
  {
  }

  datatype AdapterWrapper = AdapterWrapper(provider: P.Provider)

  /** `Name`. */
  function Name(w: AdapterWrapper): string {
    P.Name(w.provider)
  }

  /** `SupportedModels`. */
  function SupportedModels(w: AdapterWrapper): seq<string> {
    P.SupportedModels(w.provider)
  }

  /** `ValidateRequest`: the wrapped provider's verdict on the copied
      request. */
  function ValidateRequest(w: AdapterWrapper, req: T.GenerationRequest): (r: Option<Error>)
    ensures r == P.ValidateRequest(w.provider, ToAdapterRequest(req))
  {
    P.ValidateRequest(w.provider, ToAdapterRequest(req))
  }

  /** `CreateGeneration`: the wrapped provider's answer on the copied
      request, with the response copied and the error returned as it is. */
  function CreateGeneration(w: AdapterWrapper, req: T.GenerationRequest, ex: Exchange<CreateReply>):
    (r: Result<T.GenerationResponse>)
    ensures var a := P.CreateGeneration(w.provider, ToAdapterRequest(req), ex);
      && (r.Err? <==> a.Err?)
      && (r.Err? ==> r.error == a.error)
      && (r.Ok? ==> r.value.taskId == a.value.taskId && r.value.status == a.value.status)
  {
    match P.CreateGeneration(w.provider, ToAdapterRequest(req), ex)
    case Err(e) => Err(e)
    case Ok(resp) => Ok(T.GenerationResponse(resp.taskId, resp.status))
  }

  /** `GetGeneration`: the wrapped provider's answer, with the result
      copied and the error returned as it is. */
  function GetGeneration(w: AdapterWrapper, taskId: string, ex: Exchange<TaskReply>,
                         parseFloat: string -> Option<real>): (r: Result<T.TaskResult>)
    ensures var a := P.GetGeneration(w.provider, taskId, ex, parseFloat);
      && (r.Err? <==> a.Err?)
      && (r.Err? ==> r.error == a.error)
      && (r.Ok? ==> ToAdapterResult(r.value) == a.value)
  {
    match P.GetGeneration(w.provider, taskId, ex, parseFloat)
    case Err(e) => Err(e)
    case Ok(result) =>
      ResultCopyRoundTrip(result);
      Ok(FromAdapterResult(result))
  }

  /** Through the wrapper no error is ever retried by the client. */
  lemma WrappedErrorsNeverRetryable(w: AdapterWrapper, req: T.GenerationRequest, taskId: string,
                                    ex: Exchange<CreateReply>, ey: Exchange<TaskReply>,
                                    parseFloat: string -> Option<real>)
    ensures CreateGeneration(w, req, ex).Err? ==> !IsRetryable(CreateGeneration(w, req, ex).error)
    ensures GetGeneration(w, taskId, ey, parseFloat).Err? ==> !IsRetryable(GetGeneration(w, taskId, ey, parseFloat).error)
  {
    P.ErrorsNeverRetryable(w.provider, ToAdapterRequest(req), taskId, ex, ey, parseFloat);
  }
}
