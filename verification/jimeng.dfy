/** The Jimeng provider (adapters/jimeng/jimeng.go): a placeholder that accepts
    any configuration and request but implements neither call. */
module Jimeng {
  import opened Options
  import opened Errors
  import opened AdapterTypes

  const Name := "Jimeng"
  const Models: seq<string> := ["jimeng-v1", "jimeng-v2"]

  /** The error both calls return. */
  const NotImplemented := "Jimeng provider not yet implemented"

  datatype Provider = Provider(config: ProviderConfig)

  /** `New`: fails only without a configuration, which is kept as given. */
  function New(config: Option<ProviderConfig>): (r: Result<Provider>)
    ensures r.Ok? <==> config.Some?
    ensures r.Ok? ==> r.value.config == config.value
    ensures r.Err? ==> r.error == Plain("invalid configuration")
  {
    match config
    case None => Err(Plain("invalid configuration"))
    case Some(c) => Ok(Provider(c))
  }

  /** `SupportedModels`: the two model names, in this order. */
  function SupportedModels(p: Provider): (r: seq<string>)
    ensures |r| == 2 && r[0] == "jimeng-v1" && r[1] == "jimeng-v2"
  {
    Models
  }

  /** `ValidateRequest`: every request is accepted. */
  function ValidateRequest(req: GenerationRequest): (r: Option<Error>)
    ensures r.None?
  {
    None
  }

  /** `CreateGeneration`: always fails, whatever the request. */
  function CreateGeneration(p: Provider, req: GenerationRequest): (r: Result<GenerationResponse>)
    ensures r.Err? && r.error.Plain?
  {
    Err(Plain(NotImplemented))
  }

  /** `GetGeneration`: always fails, whatever the task. */
  function GetGeneration(p: Provider, taskId: string): (r: Result<TaskResult>)
    ensures r.Err? && r.error.Plain?
  {
    Err(Plain(NotImplemented))
  }

  /** Both calls fail with the same error for every input, and the client
      never retries it. */
  lemma CallsNeverSucceed(p: Provider, q: Provider, req: GenerationRequest, taskId: string)
    ensures CreateGeneration(p, req) == CreateGeneration(q, req.(prompt := ""))
    ensures GetGeneration(p, taskId) == GetGeneration(q, "")
    ensures Message(CreateGeneration(p, req).error) == Message(GetGeneration(p, taskId).error) == NotImplemented
    ensures !IsRetryable(CreateGeneration(p, req).error)
  {
    NonSentinelLeavesNotRetryable(CreateGeneration(p, req).error);
  }
}
