/** The `adapters` package's own copies of the value types
    (adapters/kling.go, top of file). They have the same fields as the
    `vidgo` ones but are distinct Go types; the adapter wrapper converts
    between the two. */
module AdapterTypes {
  import opened Options
  import Types

  type TaskStatus = string

  const Queued: TaskStatus := "queued"
  const Processing: TaskStatus := "processing"
  const Succeeded: TaskStatus := "succeeded"
  const Failed: TaskStatus := "failed"

  /** The four statuses the adapters produce. */
  predicate Canonical(s: TaskStatus) {
    s == Queued || s == Processing || s == Succeeded || s == Failed
  }

  datatype GenerationRequest = GenerationRequest(
    prompt: string,
    image: string,
    style: string,
    duration: real,
    fps: int,
    width: int,
    height: int,
    responseFormat: string,
    qualityLevel: string,
    seed: Option<int>,
    model: string,
    metadata: map<string, Types.Value>)

  datatype GenerationResponse = GenerationResponse(taskId: string, status: TaskStatus)

  datatype Metadata = Metadata(
    duration: real,
    fps: int,
    width: int,
    height: int,
    seed: Option<int>,
    format: string)

  datatype TaskError = TaskError(code: int, message: string)

  datatype TaskResult = TaskResult(
    taskId: string,
    status: TaskStatus,
    url: string,
    format: string,
    metadata: Option<Metadata>,
    error: Option<TaskError>)

  datatype ProviderConfig = ProviderConfig(
    baseUrl: string,
    apiKey: string,
    secretKey: string,
    timeout: Types.Duration,
    retryCount: int,
    extra: map<string, string>)

  /** A request with only the fields the relay adaptor fills in; every other
      field has Go's zero value. */
  function BareRequest(prompt: string, model: string, image: string, duration: real,
                       metadata: map<string, Types.Value>): GenerationRequest {
    GenerationRequest(prompt, image, "", duration, 0, 0, 0, "", "", None, model, metadata)
  }

  /** A configuration with only a key and a base URL set. */
  function KeyConfig(apiKey: string, baseUrl: string): ProviderConfig {
    ProviderConfig(baseUrl, apiKey, "", 0, 0, map[])
  }
}
