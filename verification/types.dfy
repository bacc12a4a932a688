/** The value types of the `vidgo` package (types.go): the canonical
    request, response and task result, provider configuration and the
    status and provider vocabularies. */
module Types {
  import opened Options

  /** `time.Duration`, in nanoseconds. */
  type Duration = int

  const Second: Duration := 1_000_000_000

  /** A task status; the vocabulary below is the canonical one, but the type
      is an open string like Go's `TaskStatus`. */
  type TaskStatus = string

  const Queued: TaskStatus := "queued"
  const Processing: TaskStatus := "processing"
  const Succeeded: TaskStatus := "succeeded"
  const Failed: TaskStatus := "failed"

  /** Statuses `WaitForCompletion` keeps polling on. */
  predicate InProgress(s: TaskStatus) {
    s == Queued || s == Processing
  }

  /** A value of a `map[string]interface{}` metadata map: a string, or
      anything else (number, boolean, object, ...). */
  datatype Value = Str(text: string) | NonString

  /** `m[key].(string)` with the comma-ok check and a non-empty test: the
      entry's text when the key is present, holds a string and that string
      is not empty. */
  function NonEmptyString(m: map<string, Value>, key: string): (r: Option<string>)
    ensures r.Some? <==> key in m && m[key].Str? && m[key].text != ""
    ensures r.Some? ==> m[key] == Str(r.value)
  {
    if key in m && m[key].Str? && m[key].text != "" then Some(m[key].text) else None
  }

  type ProviderType = string

  const ProviderKling: ProviderType := "kling"
  const ProviderJimeng: ProviderType := "jimeng"
  const ProviderVidu: ProviderType := "vidu"

  datatype GenerationRequest = GenerationRequest(
    prompt: string,
    image: string,
    style: string,
    duration: real,
    fps: int,
    width: int,
    height: int,
    responseFormat: string,
    qualityLevel: string,
    seed: Option<int>,
    model: string,
    metadata: map<string, Value>)

  datatype GenerationResponse = GenerationResponse(taskId: string, status: TaskStatus)

  datatype Metadata = Metadata(
    duration: real,
    fps: int,
    width: int,
    height: int,
    seed: Option<int>,
    format: string)

  datatype TaskError = TaskError(code: int, message: string)

  datatype TaskResult = TaskResult(
    taskId: string,
    status: TaskStatus,
    url: string,
    format: string,
    metadata: Option<Metadata>,
    error: Option<TaskError>)

  datatype ProviderConfig = ProviderConfig(
    baseUrl: string,
    apiKey: string,
    secretKey: string,
    timeout: Duration,
    retryCount: int,
    extra: map<string, string>)
}
