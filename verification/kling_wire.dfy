/** What travels between an adapter and the Kling HTTP API: the vendor's
    reply shapes, the outcome of one HTTP exchange, and the bearer
    credentials and header values the adapters attach. The token's HS256
    signature is not computed: a signed credential is kept as its claims and
    secret. */
module KlingWire {
  import opened Options
  import opened Text
  import opened Errors

  // ---------------------------------------------------------------------
  // Vendor replies
  // ---------------------------------------------------------------------

  datatype Video = Video(id: string, url: string, duration: string)

  /** The `data` object of a task query; `videos` is `None` when the reply
      has no `task_result` object. */
  datatype TaskData = TaskData(id: string, status: string, videos: Option<seq<Video>>)

  /** Reply to a creation request. */
  datatype CreateReply = CreateReply(code: int, message: string, taskId: string)

  /** Reply to a task query. */
  datatype TaskReply = TaskReply(code: int, message: string, data: TaskData)

  /** One HTTP exchange as `makeRequest` plus the JSON decoder see it: the
      request could not be built, the transport failed, the reply could not
      be decoded, or a decoded reply. Encoding a request body of strings and
      integers cannot fail, so there is no marshal failure. The causes are
      errors of the standard library, which wrap nothing of this SDK. */
  datatype Exchange<+T> =
    | BuildFailed(cause: string)
    | TransportFailed(cause: string)
    | DecodeFailed(cause: string)
    | Replied(body: T)

  /** The error an adapter returns for an exchange that produced no reply:
      the standard-library error wrapped once with `%w`. */
  function ExchangeError<T>(ex: Exchange<T>): (e: Error)
    requires !ex.Replied?
    ensures e.Wrapped? && e.cause.Plain?
  {
    match ex
    case BuildFailed(c) => Wrapped("failed to create request: ", Plain(c))
    case TransportFailed(c) => Wrapped("failed to make request: ", Plain(c))
    case DecodeFailed(c) => Wrapped("failed to decode response: ", Plain(c))
  }

  /** No exchange failure is ever retried by the client. */
  lemma ExchangeErrorNotRetryable<T>(ex: Exchange<T>)
    requires !ex.Replied?
    ensures !IsRetryable(ExchangeError(ex))
  {
    var e := ExchangeError(ex);
    assert Chain(e) == [e, e.cause];
  }

  // ---------------------------------------------------------------------
  // Credentials and headers
  // ---------------------------------------------------------------------

  /** The claims of a Kling token. */
  datatype Claims = Claims(iss: string, exp: int, nbf: int)

  /** What follows `Bearer ` in an Authorization header: an HS256 token over
      `claims` keyed with `secret`, or literal text. */
  datatype Credential = Signed(claims: Claims, secret: string) | Literal(text: string)

  datatype HeaderValue = Text(text: string) | Bearer(credential: Credential)

  /** Claims issued at `now` (Unix seconds): issuer is the access key, valid
      from five seconds before `now` until thirty minutes after it. */
  function KlingClaims(accessKey: string, now: int): (c: Claims)
    ensures c.iss == accessKey
    ensures c.nbf < now < c.exp
    ensures c.exp - now == 1800 && now - c.nbf == 5
  {
    Claims(accessKey, now + 1800, now - 5)
  }

  /** An HS256 token: a `[]byte` key is always accepted, so signing cannot
      fail. */
  function SignedToken(accessKey: string, secretKey: string, now: int): (c: Credential)
    ensures c.Signed? && c.claims.iss == accessKey && c.secret == secretKey
  {
    Signed(KlingClaims(accessKey, now), secretKey)
  }

  const UserAgent := "vidgo-sdk/1.0"
  const JsonType := "application/json"

  /** Headers `makeRequest` sets on every vendor call. */
  function CallHeaders(token: Credential): (h: map<string, HeaderValue>)
    ensures h.Keys == {"Content-Type", "Authorization", "User-Agent"}
    ensures h["Authorization"] == Bearer(token)
    ensures h["Content-Type"] == Text(JsonType) && h["User-Agent"] == Text(UserAgent)
  {
    map["Content-Type" := Text(JsonType), "Authorization" := Bearer(token), "User-Agent" := Text(UserAgent)]
  }

  /** An outbound HTTP request: method, URL, headers, for a POST the body
      before JSON encoding, and the client's timeout in nanoseconds (0 for
      none). */
  datatype Outbound<+B> = Outbound(httpMethod: string, url: string, headers: map<string, HeaderValue>,
                                   body: Option<B>, timeout: int)

  // ---------------------------------------------------------------------
  // API keys
  // ---------------------------------------------------------------------

  datatype KeyPair = KeyPair(access: string, secret: string)

  /** An `"access_key,secret_key"` API key split on its comma, each half
      trimmed of white space; there must be exactly two parts, but a part
      may be empty. */
  function SplitApiKey(key: string): (r: Option<KeyPair>)
    ensures r.Some? <==> Count(key, ',') == 1
    ensures r.Some? ==>
      && r.value.access == TrimSpace(key[..IndexOf(key, ',')])
      && r.value.secret == TrimSpace(key[IndexOf(key, ',') + 1..])
  {
    SplitInTwo(key, ',');
    var parts := Split(key, ',');
    if |parts| != 2 then None else Some(KeyPair(TrimSpace(parts[0]), TrimSpace(parts[1])))
  }

  /** Gluing two comma-free halves without surrounding white space with a
      comma gives a key that splits back into them. */
  lemma SplitApiKeyOfPair(a: string, b: string)
    requires ',' !in a && ',' !in b
    requires NoSpace(a) && NoSpace(b)
    ensures SplitApiKey(a + [','] + b) == Some(KeyPair(a, b))
  {
    var key := a + [','] + b;
    assert Count(key, ',') == 1 by {
      assert multiset(key) == multiset(a) + multiset{','} + multiset(b);
    }
    IndexOfAfterPrefix(a, ',', b);
    assert key[..|a|] == a && key[|a| + 1..] == b;
    TrimSpaceIdempotent(a);
    TrimSpaceIdempotent(b);
  }

  /** A key with one comma splits into its two halves. */
  lemma SplitApiKeyExample()
    ensures SplitApiKey("ak,sk") == Some(KeyPair("ak", "sk"))
  {
    assert "ak,sk" == "ak" + [','] + "sk";
    assert NoSpace("ak") && NoSpace("sk");
    SplitApiKeyOfPair("ak", "sk");
  }

  /** A key without a comma is not a key pair. */
  lemma SplitApiKeyRejectsBare()
    ensures SplitApiKey("ak") == None
  {
    assert "ak" == ['a'] + ['k'];
    assert multiset("ak") == multiset{'a', 'k'};
  }

  /** Nor is a key with two commas. */
  lemma SplitApiKeyRejectsTriple()
    ensures SplitApiKey("a,b,c") == None
  {
    var s := "a,b,c";
    assert s == ['a'] + [','] + ['b'] + [','] + ['c'];
    assert multiset(s) == multiset{'a', ',', 'b', ',', 'c'};
    assert multiset(s)[','] == 2;
  }
}
