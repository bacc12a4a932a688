/** The SDK client (client.go): request validation, the bounded retry loop
    around provider calls, polling until a task settles, and provider
    construction. The provider's replies and the context's cancellation are
    a script: element `i` says whether the context was done during the wait
    before attempt `i` and what attempt `i` returned. Waiting itself takes
    no modelled time. */
module Client {
  import opened Options
  import opened Errors
  import opened KlingWire
  import T = Types
  import AT = AdapterTypes
  import P = Providers
  import W = Wrapper
  import KP = KlingProvider

  // ---------------------------------------------------------------------
  // The retry loop
  // ---------------------------------------------------------------------

  /** One scripted attempt: `done` is `Some(deadline)` when the context
      finished during the wait before it (`deadline` tells
      `DeadlineExceeded` from `Canceled`), and `reply` is what the provider
      returned. */
  datatype Attempt<+T> = Attempt(done: Option<bool>, reply: Result<T>)

  /** How a loop ended: with a value, with an error, because the context
      finished, or without calling at all (Go's `nil, nil`). */
  datatype Outcome<+T> = Returned(value: T) | Failed(error: Error) | Cancelled(deadline: bool) | NoResult

  /** A finished loop: the number of provider calls and how it ended. */
  datatype Run<+T> = Run(calls: nat, outcome: Outcome<T>)

  /** The error the Go code returns for an outcome, if any. */
  function ErrorOf<T>(o: Outcome<T>): Option<Error> {
    match o
    case Failed(e) => Some(e)
    case Cancelled(d) => Some(ContextError(d))
    case _ => None
  }

  /** Attempt `j` was made and failed with an error worth retrying. */
  predicate Continues<T>(script: seq<Attempt<T>>, j: nat)
    requires j < |script|
  {
    && script[j].reply.Err? && IsRetryable(script[j].reply.error)
    && (j == 0 || script[j].done.None?)
  }

  /** The loop from attempt `i` on, every earlier attempt having failed
      retryably. */
  function Loop<T>(script: seq<Attempt<T>>, maxRetries: nat, i: nat): (r: Run<T>)
    requires maxRetries < |script| && i <= maxRetries + 1
    requires forall j :: 0 <= j < i ==> Continues(script, j)
    ensures i <= r.calls <= maxRetries + 1 && !r.outcome.NoResult?
    ensures r.outcome.Cancelled? ==>
      && 1 <= r.calls <= maxRetries && script[r.calls].done == Some(r.outcome.deadline)
      && forall j :: 0 <= j < r.calls ==> Continues(script, j)
    ensures r.outcome.Returned? ==>
      && r.calls >= 1 && script[r.calls - 1].reply == Ok(r.outcome.value)
      && (r.calls == 1 || script[r.calls - 1].done.None?)
      && forall j :: 0 <= j < r.calls - 1 ==> Continues(script, j)
    ensures r.outcome.Failed? ==>
      && r.calls >= 1 && script[r.calls - 1].reply == Err(r.outcome.error)
      && (r.calls == 1 || script[r.calls - 1].done.None?)
      && (!IsRetryable(r.outcome.error) || r.calls == maxRetries + 1)
      && forall j :: 0 <= j < r.calls - 1 ==> Continues(script, j)
    decreases maxRetries + 1 - i
  {
    if i > maxRetries then
      assert Continues(script, i - 1);
      Run(i, Failed(script[i - 1].reply.error))
    else if i > 0 && script[i].done.Some? then Run(i, Cancelled(script[i].done.value))
    else match script[i].reply
      case Ok(v) => Run(i + 1, Returned(v))
      case Err(e) => if !IsRetryable(e) then Run(i + 1, Failed(e)) else Loop(script, maxRetries, i + 1)
  }

  /** The loop of `CreateGeneration` and `GetGeneration`: at most
      `maxRetries + 1` calls, none at all when `maxRetries` is negative; the
      first success is returned unchanged; a non-retryable error ends it
      with that error; running out of attempts returns the last error; the
      context is consulted only between attempts, and its error replaces
      the last one. */
  function Retry<T>(script: seq<Attempt<T>>, maxRetries: int): (r: Run<T>)
    requires maxRetries < |script|
    ensures r.outcome.NoResult? <==> maxRetries < 0
    ensures r.outcome.NoResult? ==> r.calls == 0
    ensures maxRetries >= 0 ==> 1 <= r.calls <= maxRetries + 1
    ensures r.outcome.Cancelled? ==>
      && r.calls <= maxRetries && script[r.calls].done == Some(r.outcome.deadline)
      && forall j :: 0 <= j < r.calls ==> Continues(script, j)
    ensures r.outcome.Returned? ==>
      && script[r.calls - 1].reply == Ok(r.outcome.value)
      && (r.calls == 1 || script[r.calls - 1].done.None?)
      && forall j :: 0 <= j < r.calls - 1 ==> Continues(script, j)
    ensures r.outcome.Failed? ==>
      && script[r.calls - 1].reply == Err(r.outcome.error)
      && (r.calls == 1 || script[r.calls - 1].done.None?)
      && (!IsRetryable(r.outcome.error) || r.calls == maxRetries + 1)
      && forall j :: 0 <= j < r.calls - 1 ==> Continues(script, j)
  {
    if maxRetries < 0 then Run(0, NoResult) else Loop(script, maxRetries, 0)
  }

  /** A run that ends with a non-retryable first error makes one call. */
  lemma FirstHardErrorStops<T>(script: seq<Attempt<T>>, maxRetries: int)
    requires 0 <= maxRetries < |script|
    requires script[0].reply.Err? && !IsRetryable(script[0].reply.error)
    ensures Retry(script, maxRetries) == Run(1, Failed(script[0].reply.error))
  {
    assert !Continues(script, 0);
  }

  /** Two 503s and then a success: three calls, and the success. */
  lemma RetryExample(g: T.GenerationResponse)
    ensures var e := Err(APIError(503, "unavailable", ""));
      Retry([Attempt(None, e), Attempt(None, e), Attempt(None, Ok(g)), Attempt(None, Ok(g))], 3)
        == Run(3, Returned(g))
  {
  }

  // ---------------------------------------------------------------------
  // Configuration and construction
  // ---------------------------------------------------------------------

  datatype ClientConfig = ClientConfig(timeout: T.Duration, maxRetries: int, retryDelay: T.Duration, debug: bool)

  /** `DefaultClientConfig`: a 30-second timeout, three retries one
      second apart, debugging off. */
  function DefaultClientConfig(): (c: ClientConfig)
    ensures c.timeout == 30 * T.Second && c.maxRetries == 3 && c.retryDelay == T.Second && !c.debug
  {
    ClientConfig(30 * T.Second, 3, T.Second, false)
  }

  datatype Client = Client(provider: W.AdapterWrapper, config: ClientConfig)

  /** The adapters package's copy of a configuration. */
  function AdapterConfig(c: T.ProviderConfig): (a: AT.ProviderConfig)
    ensures a.baseUrl == c.baseUrl && a.apiKey == c.apiKey && a.secretKey == c.secretKey
    ensures a.timeout == c.timeout && a.retryCount == c.retryCount && a.extra == c.extra
  {
    AT.ProviderConfig(c.baseUrl, c.apiKey, c.secretKey, c.timeout, c.retryCount, c.extra)
  }

  /** `createProvider`: only the Kling type is built, by the `adapters/kling`
      constructor on the copied configuration; every other type, the
      declared Jimeng and Vidu included, is the unsupported-provider
      sentinel. */
  function CreateProvider(providerType: T.ProviderType, config: T.ProviderConfig): (r: Result<W.AdapterWrapper>)
    ensures r.Ok? <==> providerType == T.ProviderKling && SplitApiKey(config.apiKey).Some?
    ensures providerType != T.ProviderKling ==> r == Err(Sentinel(UnsupportedProvider))
    ensures providerType == T.ProviderKling && r.Err? ==> r == Err(KP.New(Some(AdapterConfig(config))).error)
    ensures r.Ok? ==> r.value.provider.KlingImpl? && r.value.provider.kling.config == AdapterConfig(config)
  {
    if providerType == T.ProviderKling then
      match KP.New(Some(AdapterConfig(config)))
      case Err(e) => Err(e)
      case Ok(p) => Ok(W.AdapterWrapper(P.KlingImpl(p)))
    else Err(Sentinel(UnsupportedProvider))
  }

  /** `NewClient`: a provider construction error is wrapped; a missing
      client configuration is the default one. */
  function NewClient(providerType: T.ProviderType, config: T.ProviderConfig, clientConfig: Option<ClientConfig>):
    (r: Result<Client>)
    ensures r.Ok? <==> CreateProvider(providerType, config).Ok?
    ensures r.Err? ==> r.error == Wrapped("failed to create provider: ", CreateProvider(providerType, config).error)
    ensures r.Ok? ==> r.value.provider == CreateProvider(providerType, config).value
    ensures r.Ok? ==> r.value.config == clientConfig.GetOr(DefaultClientConfig())
  {
    match CreateProvider(providerType, config)
    case Err(e) => Err(Wrapped("failed to create provider: ", e))
    case Ok(p) => Ok(Client(p, clientConfig.GetOr(DefaultClientConfig())))
  }

  /** Asking for Jimeng or Vidu fails, and the failure is recognisably the
      unsupported-provider sentinel through its wrapping. */
  lemma DeclaredProvidersUnsupported(providerType: T.ProviderType, config: T.ProviderConfig,
                                     clientConfig: Option<ClientConfig>)
    requires providerType == T.ProviderJimeng || providerType == T.ProviderVidu
    ensures NewClient(providerType, config, clientConfig).Err?
    ensures Is(NewClient(providerType, config, clientConfig).error, UnsupportedProvider)
  {
    var e := NewClient(providerType, config, clientConfig).error;
    assert Chain(e) == [e, Sentinel(UnsupportedProvider)];
    IsMeansInChain(e, UnsupportedProvider);
  }

  /** `GetProviderName` of a constructed client. */
  lemma ClientIsKling(providerType: T.ProviderType, config: T.ProviderConfig, clientConfig: Option<ClientConfig>)
    requires NewClient(providerType, config, clientConfig).Ok?
    ensures W.Name(NewClient(providerType, config, clientConfig).value.provider) == "Kling"
    ensures W.SupportedModels(NewClient(providerType, config, clientConfig).value.provider) == KP.Models
  {
  }

  // ---------------------------------------------------------------------
  // Validation and the two calls
  // ---------------------------------------------------------------------

  /** `validateRequest`: the request's own checks in order, reporting the
      first that fails, then the provider's verdict. `None` is a nil
      request. */
  function ValidateRequest(c: Client, req: Option<T.GenerationRequest>): (r: Option<Error>)
    ensures req.None? ==> r == Some(ValidationError("request", "request cannot be nil"))
    ensures req.Some? ==>
      var q := req.value;
      && (q.prompt == "" && q.image == "" ==>
            r == Some(ValidationError("prompt/image", "at least one of prompt or image must be provided")))
      && (!(q.prompt == "" && q.image == "") && q.duration <= 0.0 ==>
            r == Some(ValidationError("duration", "duration must be positive")))
      && (!(q.prompt == "" && q.image == "") && q.duration > 0.0 && q.width <= 0 ==>
            r == Some(ValidationError("width", "width must be positive")))
      && (!(q.prompt == "" && q.image == "") && q.duration > 0.0 && q.width > 0 && q.height <= 0 ==>
            r == Some(ValidationError("height", "height must be positive")))
      && (!(q.prompt == "" && q.image == "") && q.duration > 0.0 && q.width > 0 && q.height > 0 ==>
            r == W.ValidateRequest(c.provider, q))
  {
    match req
    case None => Some(ValidationError("request", "request cannot be nil"))
    case Some(q) =>
      if q.prompt == "" && q.image == "" then
        Some(ValidationError("prompt/image", "at least one of prompt or image must be provided"))
      else if q.duration <= 0.0 then Some(ValidationError("duration", "duration must be positive"))
      else if q.width <= 0 then Some(ValidationError("width", "width must be positive"))
      else if q.height <= 0 then Some(ValidationError("height", "height must be positive"))
      else W.ValidateRequest(c.provider, q)
  }

  /** With a Kling client a request passes exactly when it has a prompt or
      an image, positive duration and size, an empty or listed model, and
      a duration of 5 or 10 seconds. */
  lemma KlingValidation(c: Client, q: T.GenerationRequest)
    requires c.provider.provider.KlingImpl?
    ensures ValidateRequest(c, Some(q)).None? <==>
      && (q.prompt != "" || q.image != "") && q.width > 0 && q.height > 0
      && (q.model == "" || q.model in KP.Models) && (q.duration == 5.0 || q.duration == 10.0)
  {
  }

  /** One scripted step of a client call: whether the context finished
      during the preceding wait, and the HTTP exchange of that attempt. */
  datatype Step<+E> = Step(done: Option<bool>, exchange: E)

  /** `CreateGeneration`: a request that fails validation is refused with
      no provider call; otherwise the retry loop runs over the wrapped
      provider's replies. */
  function CreateGeneration(c: Client, req: Option<T.GenerationRequest>, script: seq<Step<Exchange<CreateReply>>>):
    (r: Run<T.GenerationResponse>)
    requires c.config.maxRetries < |script|
    ensures ValidateRequest(c, req).Some? ==> r == Run(0, Failed(ValidateRequest(c, req).value))
    ensures ValidateRequest(c, req).None? ==>
      r == Retry(seq(|script|, i requires 0 <= i < |script| =>
                   Attempt(script[i].done, W.CreateGeneration(c.provider, req.value, script[i].exchange))),
                 c.config.maxRetries)
  {
    match ValidateRequest(c, req)
    case Some(e) => Run(0, Failed(e))
    case None =>
      Retry(seq(|script|, i requires 0 <= i < |script| =>
              Attempt(script[i].done, W.CreateGeneration(c.provider, req.value, script[i].exchange))),
            c.config.maxRetries)
  }

  /** `GetGeneration`: an empty task id is refused with no provider call;
      otherwise the retry loop runs over the wrapped provider's replies. */
  function GetGeneration(c: Client, taskId: string, script: seq<Step<Exchange<TaskReply>>>,
                         parseFloat: string -> Option<real>): (r: Run<T.TaskResult>)
    requires c.config.maxRetries < |script|
    ensures taskId == "" ==> r == Run(0, Failed(ValidationError("task_id", "task ID cannot be empty")))
    ensures taskId != "" ==>
      r == Retry(seq(|script|, i requires 0 <= i < |script| =>
                   Attempt(script[i].done, W.GetGeneration(c.provider, taskId, script[i].exchange, parseFloat))),
                 c.config.maxRetries)
  {
    if taskId == "" then Run(0, Failed(ValidationError("task_id", "task ID cannot be empty")))
    else
      Retry(seq(|script|, i requires 0 <= i < |script| =>
              Attempt(script[i].done, W.GetGeneration(c.provider, taskId, script[i].exchange, parseFloat))),
            c.config.maxRetries)
  }

  /** One call whose reply decides: its value, or its error. */
  function FirstDecides<T>(script: seq<Attempt<T>>): Run<T>
    requires |script| > 0
  {
    Run(1, if script[0].reply.Ok? then Returned(script[0].reply.value) else Failed(script[0].reply.error))
  }

  /** A script whose attempts never fail retryably, for instance one made of
      the replies of the SDK's own providers, is never retried. */
  lemma NoRetryWithoutRetryableError<T>(script: seq<Attempt<T>>, maxRetries: int)
    requires maxRetries < |script|
    requires forall j :: 0 <= j < |script| && script[j].reply.Err? ==> !IsRetryable(script[j].reply.error)
    ensures Retry(script, maxRetries).calls <= 1
    ensures !Retry(script, maxRetries).outcome.Cancelled?
    ensures maxRetries >= 0 ==> Retry(script, maxRetries) == FirstDecides(script)
  {
    if maxRetries >= 0 {
      assert !Continues(script, 0);
    }
  }

  /** Through the SDK's own providers a client call makes at most one
      provider call, whatever the retry budget: none of their errors is
      retryable. */
  lemma ProvidersNeverRetried(c: Client, req: Option<T.GenerationRequest>, taskId: string,
                              cs: seq<Step<Exchange<CreateReply>>>, gs: seq<Step<Exchange<TaskReply>>>,
                              parseFloat: string -> Option<real>)
    requires c.config.maxRetries < |cs| && c.config.maxRetries < |gs|
    ensures CreateGeneration(c, req, cs).calls <= 1
    ensures GetGeneration(c, taskId, gs, parseFloat).calls <= 1
    ensures ValidateRequest(c, req).None? && c.config.maxRetries >= 0 ==>
      var first := W.CreateGeneration(c.provider, req.value, cs[0].exchange);
      CreateGeneration(c, req, cs) == Run(1, if first.Ok? then Returned(first.value) else Failed(first.error))
    ensures taskId != "" && c.config.maxRetries >= 0 ==>
      var first := W.GetGeneration(c.provider, taskId, gs[0].exchange, parseFloat);
      GetGeneration(c, taskId, gs, parseFloat) == Run(1, if first.Ok? then Returned(first.value) else Failed(first.error))
  {
    if ValidateRequest(c, req).None? {
      var attempts := seq(|cs|, i requires 0 <= i < |cs| =>
                        Attempt(cs[i].done, W.CreateGeneration(c.provider, req.value, cs[i].exchange)));
      forall j | 0 <= j < |attempts| && attempts[j].reply.Err?
        ensures !IsRetryable(attempts[j].reply.error)
      {
        W.WrappedErrorsNeverRetryable(c.provider, req.value, taskId, cs[j].exchange, Replied(TaskReply(0, "", TaskData("", "", None))), parseFloat);
      }
      NoRetryWithoutRetryableError(attempts, c.config.maxRetries);
    }
    if taskId != "" {
      var attempts := seq(|gs|, i requires 0 <= i < |gs| =>
                        Attempt(gs[i].done, W.GetGeneration(c.provider, taskId, gs[i].exchange, parseFloat)));
      forall j | 0 <= j < |attempts| && attempts[j].reply.Err?
        ensures !IsRetryable(attempts[j].reply.error)
      {
        W.WrappedErrorsNeverRetryable(c.provider, T.GenerationRequest("", "", "", 0.0, 0, 0, 0, "", "", None, "", map[]),
                                      taskId, Replied(CreateReply(0, "", "")), gs[j].exchange, parseFloat);
      }
      NoRetryWithoutRetryableError(attempts, c.config.maxRetries);
    }
  }

  // ---------------------------------------------------------------------
  // Polling
  // ---------------------------------------------------------------------

  const DefaultPollInterval: T.Duration := 5 * T.Second

  /** The interval `WaitForCompletion` polls at. */
  function PollInterval(requested: T.Duration): (d: T.Duration)
    ensures d > 0
    ensures requested > 0 ==> d == requested
    ensures requested <= 0 ==> d == DefaultPollInterval
  {
    if requested <= 0 then DefaultPollInterval else requested
  }

  /** What one turn of the polling loop saw: the context finishing, or the
      outcome of the `GetGeneration` call made on a tick. */
  datatype Observed = ContextDone(deadline: bool) | Polled(outcome: Outcome<T.TaskResult>)

  /** The poll returned a task that is still queued or processing. */
  predicate Running(o: Observed) {
    o.Polled? && o.outcome.Returned? && T.InProgress(o.outcome.value.status)
  }

  /** How polling ended: a settled result, an error, or (when the observed
      turns run out) still polling. `NilResult` is the Go code
      dereferencing the nil result that `GetGeneration` gives when
      `maxRetries` is negative. */
  datatype Waited = Settled(result: T.TaskResult) | Stopped(error: Error) | StillPolling | NilResult

  /** The number of turns taken and how polling ended. */
  datatype Wait = Wait(turns: nat, outcome: Waited)

  /** The polling loop over what each turn observed: it continues exactly
      while polls return queued or processing tasks; the first other turn
      ends it, with the context's error, the poll's error or the settled
      result. */
  function Settle(obs: seq<Observed>): (r: Wait)
    ensures r.turns <= |obs|
    ensures forall k :: 0 <= k < r.turns - 1 ==> Running(obs[k])
    ensures r.outcome.StillPolling? <==> r.turns == |obs| && forall k :: 0 <= k < |obs| ==> Running(obs[k])
    ensures !r.outcome.StillPolling? ==> 1 <= r.turns && !Running(obs[r.turns - 1])
    ensures r.outcome.Settled? ==>
      obs[r.turns - 1] == Polled(Returned(r.outcome.result)) && !T.InProgress(r.outcome.result.status)
    ensures !r.outcome.StillPolling? && obs[r.turns - 1].ContextDone? ==>
      r.outcome == Stopped(ContextError(obs[r.turns - 1].deadline))
    ensures !r.outcome.StillPolling? && obs[r.turns - 1].Polled? ==>
      var o := obs[r.turns - 1].outcome;
      && (o.Failed? ==> r.outcome == Stopped(o.error))
      && (o.Cancelled? ==> r.outcome == Stopped(ContextError(o.deadline)))
      && (o.NoResult? ==> r.outcome == NilResult)
      && (o.Returned? ==> r.outcome == Settled(o.value))
    decreases |obs|
  {
    if obs == [] then Wait(0, StillPolling)
    else match obs[0]
      case ContextDone(d) => Wait(1, Stopped(ContextError(d)))
      case Polled(o) =>
        match o
        case Failed(e) => Wait(1, Stopped(e))
        case Cancelled(d) => Wait(1, Stopped(ContextError(d)))
        case NoResult => Wait(1, NilResult)
        case Returned(v) =>
          if T.InProgress(v.status) then
            var rest := Settle(obs[1..]);
            assert forall k :: 1 <= k < |obs| ==> obs[1..][k - 1] == obs[k];
            Wait(rest.turns + 1, rest.outcome)
          else Wait(1, Settled(v))
  }

  /** How a poll that is not still in progress ends the polling: its
      error, the context's error, the nil result, or the settled result. */
  function PollVerdict(o: Outcome<T.TaskResult>): Waited {
    match o
    case Failed(e) => Stopped(e)
    case Cancelled(d) => Stopped(ContextError(d))
    case NoResult => NilResult
    case Returned(v) => Settled(v)
  }

  /** The polling loop's verdict when its deciding turn was a poll. */
  lemma {:induction false} SettleLastPoll(obs: seq<Observed>, o: Outcome<T.TaskResult>)
    requires !Settle(obs).outcome.StillPolling? && obs[Settle(obs).turns - 1] == Polled(o)
    ensures Settle(obs).outcome == PollVerdict(o)
    ensures o.Returned? ==> !T.InProgress(o.value.status)
  {
  }

  /** What woke the polling loop: the context finishing, or a tick, with
      the script of the `GetGeneration` call made on it. */
  datatype Wakeup = Done(deadline: bool) | Tick(script: seq<Step<Exchange<TaskReply>>>)

  /** Every tick's script covers the retry budget. */
  predicate Covers(c: Client, wakeups: seq<Wakeup>) {
    forall k :: 0 <= k < |wakeups| && wakeups[k].Tick? ==> c.config.maxRetries < |wakeups[k].script|
  }

  /** What a wakeup leads to. */
  function Observe(c: Client, taskId: string, w: Wakeup, parseFloat: string -> Option<real>): Observed
    requires w.Tick? ==> c.config.maxRetries < |w.script|
  {
    match w
    case Done(d) => ContextDone(d)
    case Tick(script) => Polled(GetGeneration(c, taskId, script, parseFloat).outcome)
  }

  /** The wakeups seen as the polling loop sees them. */
  function Observations(c: Client, taskId: string, wakeups: seq<Wakeup>,
                        parseFloat: string -> Option<real>): (obs: seq<Observed>)
    requires Covers(c, wakeups)
    ensures |obs| == |wakeups|
    ensures forall k :: 0 <= k < |wakeups| ==> obs[k] == Observe(c, taskId, wakeups[k], parseFloat)
  {
    seq(|wakeups|, k requires 0 <= k < |wakeups| => Observe(c, taskId, wakeups[k], parseFloat))
  }

  /** `WaitForCompletion`: on each tick one `GetGeneration`, and the
      polling loop over what the wakeups lead to. A settled result is never
      queued or processing, and it is what the last tick's call returned. */
  function WaitForCompletion(c: Client, taskId: string, wakeups: seq<Wakeup>,
                             parseFloat: string -> Option<real>): (r: Wait)
    requires Covers(c, wakeups)
    ensures r.turns <= |wakeups|
    ensures !r.outcome.StillPolling? ==> 1 <= r.turns
    ensures r.outcome.Settled? ==>
      && !T.InProgress(r.outcome.result.status) && 1 <= r.turns && wakeups[r.turns - 1].Tick?
      && GetGeneration(c, taskId, wakeups[r.turns - 1].script, parseFloat).outcome == Returned(r.outcome.result)
    ensures !r.outcome.StillPolling? && wakeups[r.turns - 1].Done? ==>
      r.outcome == Stopped(ContextError(wakeups[r.turns - 1].deadline))
  {
    Settle(Observations(c, taskId, wakeups, parseFloat))
  }

  /** Polling goes on only through ticks whose call returned a task still
      queued or processing: every turn before the last was one, and polling
      is still going on exactly when every turn was one. */
  lemma {:induction false} WaitRunsWhileInProgress(c: Client, taskId: string, wakeups: seq<Wakeup>,
                                parseFloat: string -> Option<real>)
    requires Covers(c, wakeups)
    ensures var r := WaitForCompletion(c, taskId, wakeups, parseFloat);
      && (forall k :: 0 <= k < r.turns - 1 ==>
            wakeups[k].Tick? && Running(Polled(GetGeneration(c, taskId, wakeups[k].script, parseFloat).outcome)))
      && (r.outcome.StillPolling? <==>
            r.turns == |wakeups| && forall k :: 0 <= k < |wakeups| ==> Running(Observe(c, taskId, wakeups[k], parseFloat)))
  {
    var obs := Observations(c, taskId, wakeups, parseFloat);
    var r := Settle(obs);
    forall k | 0 <= k < r.turns - 1
      ensures wakeups[k].Tick? && Running(Polled(GetGeneration(c, taskId, wakeups[k].script, parseFloat).outcome))
    {
      assert Running(obs[k]);
    }
  }

  /** The first turn that is not such a tick decides. When it is a tick
      (turn `i`), the outcome of its call decides: a call error stops with
      that error, a cancellation with the context's error, a nil result
      gives the nil-result case, and a result, which is then neither
      queued nor processing, is settled. */
  lemma {:induction false} WaitLastTurnDecides(c: Client, taskId: string, wakeups: seq<Wakeup>,
                                               parseFloat: string -> Option<real>, i: nat)
    requires Covers(c, wakeups) && i < |wakeups| && wakeups[i].Tick?
    ensures var r := WaitForCompletion(c, taskId, wakeups, parseFloat);
      !r.outcome.StillPolling? && r.turns == i + 1 ==>
        var o := GetGeneration(c, taskId, wakeups[i].script, parseFloat).outcome;
        r.outcome == PollVerdict(o) && (o.Returned? ==> !T.InProgress(o.value.status))
  {
    var r := WaitForCompletion(c, taskId, wakeups, parseFloat);
    if !r.outcome.StillPolling? && r.turns == i + 1 {
      var o := GetGeneration(c, taskId, wakeups[i].script, parseFloat).outcome;
      var obs := Observations(c, taskId, wakeups, parseFloat);
      assert obs[i] == Polled(o);
      SettleLastPoll(obs, o);
    }
  }

  /** An empty task id stops polling at the first tick with the validation
      error, making no provider call. */
  lemma WaitEmptyTaskId(c: Client, wakeups: seq<Wakeup>, parseFloat: string -> Option<real>)
    requires Covers(c, wakeups) && |wakeups| > 0 && wakeups[0].Tick?
    ensures WaitForCompletion(c, "", wakeups, parseFloat)
      == Wait(1, Stopped(ValidationError("task_id", "task ID cannot be empty")))
  {
    var obs := seq(|wakeups|, k requires 0 <= k < |wakeups| => Observe(c, "", wakeups[k], parseFloat));
    assert obs[0] == Polled(Failed(ValidationError("task_id", "task ID cannot be empty")));
  }
}
