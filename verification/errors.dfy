/** The SDK's error taxonomy (errors.go) together with the error types the
    adapters package declares for itself (adapters/kling.go), the context
    package's two errors, and `fmt.Errorf("...%w", err)` wrapping. */
module Errors {
  import opened Options
  import opened Text

  /** The package-level sentinel values of errors.go. Each is one
      `errors.New` value, so comparing kinds is comparing identities. */
  datatype SentinelKind =
    | UnsupportedProvider
    | InvalidConfiguration
    | InvalidRequest
    | TaskNotFound
    | ProviderAPIError
    | NetworkError
    | AuthenticationFailed
    | RateLimitExceeded
    | InsufficientQuota

  /** Every error value the core produces or inspects. */
  datatype Error =
      /** `*vidgo.APIError` */
    | APIError(code: int, message: string, provider: string)
      /** `*adapters.APIError`: same fields, a different Go type */
    | AdapterAPIError(code: int, message: string, provider: string)
      /** `*vidgo.ValidationError` */
    | ValidationError(field: string, message: string)
      /** `*adapters.ValidationError` */
    | AdapterValidationError(field: string, message: string)
      /** one of the sentinels of errors.go */
    | Sentinel(kind: SentinelKind)
      /** `context.Canceled` (`deadline` false) or `context.DeadlineExceeded` */
    | ContextError(deadline: bool)
      /** an error that wraps nothing of this package: `errors.New`,
          `fmt.Errorf` without `%w`, or an error of the standard library
          (HTTP transport, JSON decoder) */
    | Plain(text: string)
      /** `fmt.Errorf(prefix + "%w", cause)` */
    | Wrapped(prefix: string, cause: Error)

  /** The `(value, error)` pair of a Go call that returns one or the other. */
  datatype Result<+T> = Ok(value: T) | Err(error: Error)

  /** The text each sentinel was created with. */
  function SentinelText(k: SentinelKind): (s: string)
    ensures s != ""
  {
    match k
    case UnsupportedProvider => "unsupported provider"
    case InvalidConfiguration => "invalid configuration"
    case InvalidRequest => "invalid request"
    case TaskNotFound => "task not found"
    case ProviderAPIError => "provider API error"
    case NetworkError => "network error"
    case AuthenticationFailed => "authentication failed"
    case RateLimitExceeded => "rate limit exceeded"
    case InsufficientQuota => "insufficient quota"
  }

  /** Both packages format an API error the same way: the provider tag in
      brackets when there is one, then the code and the message. */
  function ApiErrorText(code: int, message: string, provider: string): (s: string)
    ensures provider != "" <==> (|s| > 0 && s[0] == '[')
    ensures |s| >= |message| + 2 && s[|s| - |message| - 2..] == ": " + message
  {
    var tail := "API error " + IntToString(code) + ": " + message;
    assert tail[|tail| - |message| - 2..] == ": " + message;
    if provider != "" then "[" + provider + "] " + tail else tail
  }

  const ValidationPrefix := "validation error for field '"

  /** Both packages format a validation error the same way: the fixed
      prefix, the field, a closing quote with a colon and a space, then the
      message; field and message can be read back at known places. */
  function ValidationErrorText(field: string, message: string): (s: string)
    ensures |s| == |ValidationPrefix| + |field| + 3 + |message|
    ensures s[..|ValidationPrefix|] == ValidationPrefix
    ensures s[|ValidationPrefix|..|ValidationPrefix| + |field|] == field
    ensures s[|ValidationPrefix| + |field|..|s| - |message|] == "': "
    ensures s[|s| - |message|..] == message
  {
    var s := ValidationPrefix + field + "': " + message;
    assert s[..|ValidationPrefix|] == ValidationPrefix;
    assert s[|ValidationPrefix|..|ValidationPrefix| + |field|] == field;
    assert s[|ValidationPrefix| + |field|..|s| - |message|] == "': ";
    s
  }

  /** The untagged API error text starts with "API error ", and the code
      can be parsed back from what lies between that and ": " + message. */
  lemma ApiTextReadBack(code: int, message: string)
    ensures var s := ApiErrorText(code, message, "");
      && |s| >= 10 + |message| + 2
      && s[..10] == "API error "
      && ParseInt(s[10..|s| - |message| - 2]) == Some(code)
  {
    var s := ApiErrorText(code, message, "");
    var digits := IntToString(code);
    assert s == "API error " + digits + ": " + message;
    assert s[..10] == "API error ";
    assert s[10..|s| - |message| - 2] == digits;
    IntToStringRoundTrip(code);
  }

  /** `err.Error()`. The two packages' API error types read alike, and
      so do their validation error types; a wrapper's text is its prefix
      followed by the text of what it wraps. */
  function Message(e: Error): (s: string)
    ensures e.APIError? || e.AdapterAPIError? ==> s == ApiErrorText(e.code, e.message, e.provider)
    ensures e.ValidationError? || e.AdapterValidationError? ==> s == ValidationErrorText(e.field, e.message)
    ensures e.Sentinel? ==> s == SentinelText(e.kind) && s != ""
    ensures e.Wrapped? ==> |s| >= |e.prefix| && s[..|e.prefix|] == e.prefix
  {
    match e
    case APIError(c, m, p) => ApiErrorText(c, m, p)
    case AdapterAPIError(c, m, p) => ApiErrorText(c, m, p)
    case ValidationError(f, m) => ValidationErrorText(f, m)
    case AdapterValidationError(f, m) => ValidationErrorText(f, m)
    case Sentinel(k) => SentinelText(k)
    case ContextError(d) => if d then "context deadline exceeded" else "context canceled"
    case Plain(t) => t
    case Wrapped(p, c) => p + Message(c)
  }

  /** Distinct sentinels have distinct texts, so a sentinel's text
      identifies it. */
  lemma SentinelTextsDistinct(a: SentinelKind, b: SentinelKind)
    ensures SentinelText(a) == SentinelText(b) <==> a == b
  {
  }

  /** The innermost error of a `%w` chain. */
  function Root(e: Error): Error {
    if e.Wrapped? then Root(e.cause) else e
  }

  /** The innermost error is the last one `errors.Unwrap` reaches. */
  lemma {:induction false} RootEndsChain(e: Error)
    ensures Root(e) == Chain(e)[|Chain(e)| - 1] && !Root(e).Wrapped?
  {
    if e.Wrapped? {
      RootEndsChain(e.cause);
      assert Chain(e) == [e] + Chain(e.cause);
    }
  }

  /** The `%w` prefixes of a chain, outermost first. */
  function Prefixes(e: Error): string {
    if e.Wrapped? then e.prefix + Prefixes(e.cause) else ""
  }

  /** Wrapping with `%w` only ever prepends: a wrapper's text is its
      chain's prefixes followed by the text of the innermost error. */
  lemma {:induction false} MessageEndsWithRoot(e: Error)
    ensures Message(e) == Prefixes(e) + Message(Root(e))
  {
    if e.Wrapped? {
      MessageEndsWithRoot(e.cause);
      Regroup(e.prefix, Prefixes(e.cause), Message(Root(e.cause)), Message(e.cause), Message(e));
    }
  }

  /** Prepending to a concatenation: `p + (q + m)` is `(p + q) + m`. */
  lemma Regroup(p: string, q: string, m: string, inner: string, whole: string)
    requires inner == q + m && whole == p + inner
    ensures whole == (p + q) + m
  {
  }

  /** The error and everything it wraps, outermost first (what repeated
      `errors.Unwrap` visits). */
  function Chain(e: Error): (c: seq<Error>)
    ensures |c| >= 1 && c[0] == e
  {
    if e.Wrapped? then [e] + Chain(e.cause) else [e]
  }

  /** `errors.Is(e, target)` for a sentinel target: the sentinel itself or a
      `%w` chain leading to it. */
  predicate Is(e: Error, target: SentinelKind) {
    e == Sentinel(target) || (e.Wrapped? && Is(e.cause, target))
  }

  lemma {:induction false} IsMeansInChain(e: Error, target: SentinelKind)
    ensures Is(e, target) <==> Sentinel(target) in Chain(e)
  {
    if e.Wrapped? {
      IsMeansInChain(e.cause, target);
      assert Chain(e) == [e] + Chain(e.cause);
    }
  }

  /** `IsRetryableError`: a type assertion on the outermost error only,
      then `errors.Is` over the whole chain for the two transient
      sentinels. */
  function IsRetryable(e: Error): (r: bool)
    ensures e.APIError? ==> (r <==> e.code >= 500 || e.code == 429)
    ensures !e.APIError? ==>
      (r <==> Sentinel(NetworkError) in Chain(e) || Sentinel(RateLimitExceeded) in Chain(e))
  {
    IsMeansInChain(e, NetworkError);
    IsMeansInChain(e, RateLimitExceeded);
    match e
    case APIError(code, _, _) => code >= 500 || code == 429
    case _ => Is(e, NetworkError) || Is(e, RateLimitExceeded)
  }

  /** Wrapping hides an API error's code from the predicate: a wrapped error
      is retryable exactly when a transient sentinel sits somewhere in what
      it wraps, whatever the outer error was. */
  lemma WrappingHidesApiCode(prefix: string, e: Error)
    ensures IsRetryable(Wrapped(prefix, e)) <==>
      Sentinel(NetworkError) in Chain(e) || Sentinel(RateLimitExceeded) in Chain(e)
    ensures e.APIError? ==> !IsRetryable(Wrapped(prefix, e))
  {
    assert Chain(Wrapped(prefix, e)) == [Wrapped(prefix, e)] + Chain(e);
    if e.APIError? {
      assert Chain(e) == [e];
    }
  }

  /** Errors that never carry a sentinel are never retried: validation
      errors of either package, the adapters package's API error whatever
      its code, context errors and plain errors. */
  lemma NonSentinelLeavesNotRetryable(e: Error)
    requires e.AdapterAPIError? || e.ValidationError? || e.AdapterValidationError?
          || e.ContextError? || e.Plain?
    ensures !IsRetryable(e)
  {
    assert Chain(e) == [e];
  }

  /** A chain of wrappers around a plain error is never retried. */
  lemma {:induction false} WrappedPlainNotRetryable(e: Error)
    requires forall x :: x in Chain(e) ==> x.Wrapped? || x.Plain?
    ensures !IsRetryable(e)
  {
    assert e in Chain(e);
    if e.Wrapped? {
      assert Chain(e) == [e] + Chain(e.cause);
      WrappedPlainNotRetryable(e.cause);
    }
  }

  /** The cases of the package's retryability test. */
  lemma RetryableExamples()
    ensures IsRetryable(APIError(500, "Internal Server Error", ""))
    ensures IsRetryable(APIError(429, "Rate limit exceeded", ""))
    ensures !IsRetryable(APIError(400, "Bad Request", ""))
    ensures IsRetryable(Wrapped("failed to make request: ", Sentinel(NetworkError)))
  {
    assert Chain(Wrapped("failed to make request: ", Sentinel(NetworkError)))
      == [Wrapped("failed to make request: ", Sentinel(NetworkError)), Sentinel(NetworkError)];
  }

  lemma FourHundredText()
    ensures IntToString(400) == "400"
  {
    assert NatToString(4) == "4";
    assert NatToString(40) == NatToString(4) + "0";
    assert NatToString(400) == NatToString(40) + "0";
  }

  /** The API error format checked by the package's error test, for any
      provider tag (the test uses "TestProvider"). */
  lemma ApiMessageExample(provider: string)
    requires provider != ""
    ensures Message(APIError(400, "Bad Request", provider)) == "[" + provider + "] " + "API error 400: Bad Request"
  {
    ApiMessageUntaggedExample();
    TaggedText(400, "Bad Request", provider);
  }

  /** A provider tag only prefixes the untagged text. */
  lemma TaggedText(code: int, message: string, provider: string)
    requires provider != ""
    ensures ApiErrorText(code, message, provider) == "[" + provider + "] " + ApiErrorText(code, message, "")
  {
  }

  lemma ApiMessageUntaggedExample()
    ensures Message(APIError(400, "Bad Request", "")) == "API error 400: Bad Request"
  {
    FourHundredText();
  }

  /** The validation error format checked by the package's error test. */
  lemma ValidationMessageExample()
    ensures Message(ValidationError("duration", "must be positive"))
      == "validation error for field '" + "duration" + "': " + "must be positive"
  {
  }
}
