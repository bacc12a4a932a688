/** The `adapters.Provider` interface (adapters/kling.go) and its three
    implementations. Kling's calls take the HTTP exchange as an input; the
    other two never reach the network. */
module Providers {
  import opened Options
  import opened Errors
  import opened AdapterTypes
  import opened KlingWire
  import KP = KlingProvider
  import Jimeng
  import Vidu

  datatype Provider =
    | KlingImpl(kling: KP.Provider)
    | JimengImpl(jimeng: Jimeng.Provider)
    | ViduImpl(vidu: Vidu.Provider)

  /** `Name`. */
  function Name(p: Provider): (n: string)
    ensures p.KlingImpl? <==> n == "Kling"
    ensures p.JimengImpl? <==> n == "Jimeng"
    ensures p.ViduImpl? <==> n == "Vidu"
  {
    match p
    case KlingImpl(_) => KP.Name
    case JimengImpl(_) => Jimeng.Name
    case ViduImpl(_) => Vidu.Name
  }

  /** `SupportedModels`. */
  function SupportedModels(p: Provider): seq<string> {
    match p
    case KlingImpl(k) => KP.SupportedModels(k)
    case JimengImpl(j) => Jimeng.SupportedModels(j)
    case ViduImpl(v) => Vidu.SupportedModels(v)
  }

  /** No model name is claimed by two providers. */
  lemma ModelsDisjoint(p: Provider, q: Provider, m: string)
    requires m in SupportedModels(p) && m in SupportedModels(q)
    ensures Name(p) == Name(q)
  {
  }

  /** `ValidateRequest`: only Kling checks anything. */
  function ValidateRequest(p: Provider, req: GenerationRequest): (r: Option<Error>)
    ensures !p.KlingImpl? ==> r.None?
    ensures p.KlingImpl? ==> (r.None? <==> (req.model == "" || req.model in KP.Models)
                                           && (req.duration == 5.0 || req.duration == 10.0))
  {
    match p
    case KlingImpl(_) => KP.ValidateRequest(req)
    case JimengImpl(_) => Jimeng.ValidateRequest(req)
    case ViduImpl(_) => Vidu.ValidateRequest(req)
  }

  /** `CreateGeneration`; `ex` is what Kling's HTTP exchange produced. */
  function CreateGeneration(p: Provider, req: GenerationRequest, ex: Exchange<CreateReply>): (r: Result<GenerationResponse>)
    ensures r.Ok? <==> p.KlingImpl? && ex.Replied? && ex.body.code == 0
    ensures r.Ok? ==> r.value == GenerationResponse(ex.body.taskId, Queued)
  {
    match p
    case KlingImpl(k) => KP.CreateGeneration(k, req, ex)
    case JimengImpl(j) => Jimeng.CreateGeneration(j, req)
    case ViduImpl(v) => Vidu.CreateGeneration(v, req)
  }

  /** `GetGeneration`; `ex` is what Kling's HTTP exchange produced. */
  function GetGeneration(p: Provider, taskId: string, ex: Exchange<TaskReply>,
                         parseFloat: string -> Option<real>): (r: Result<TaskResult>)
    ensures r.Ok? <==> p.KlingImpl? && ex.Replied? && ex.body.code == 0
    ensures r.Ok? ==> r.value == KP.ConvertTaskResult(ex.body.data, parseFloat)
  {
    match p
    case KlingImpl(k) => KP.GetGeneration(k, taskId, ex, parseFloat)
    case JimengImpl(j) => Jimeng.GetGeneration(j, taskId)
    case ViduImpl(v) => Vidu.GetGeneration(v, taskId)
  }

  /** No provider ever returns an error the client would retry: Kling's
      are plain or wrap a standard-library error, the stubs' are plain. */
  lemma ErrorsNeverRetryable(p: Provider, req: GenerationRequest, taskId: string,
                             ex: Exchange<CreateReply>, ey: Exchange<TaskReply>, parseFloat: string -> Option<real>)
    ensures CreateGeneration(p, req, ex).Err? ==> !IsRetryable(CreateGeneration(p, req, ex).error)
    ensures GetGeneration(p, taskId, ey, parseFloat).Err? ==> !IsRetryable(GetGeneration(p, taskId, ey, parseFloat).error)
  {
    if p.KlingImpl? {
      if !ex.Replied? { ExchangeErrorNotRetryable(ex); }
      else { KP.ProviderErrorsNotRetryable(ex, ex.body.code, ex.body.message); }
      if !ey.Replied? { ExchangeErrorNotRetryable(ey); }
      else { KP.ProviderErrorsNotRetryable(ey, ey.body.code, ey.body.message); }
    } else {
      NonSentinelLeavesNotRetryable(CreateGeneration(p, req, ex).error);
      NonSentinelLeavesNotRetryable(GetGeneration(p, taskId, ey, parseFloat).error);
    }
  }
}
