/**
 `AuthMiddleware::process`: resolve the request's API token to a user,
 through the Redis cache or the identity API, attach it as the `auth_user`
 attribute and delegate to the next handler.

 Everything outside the class is an input: the configured base URL, the
 cache contents and its faults, MD5, the HTTP call, the JSON decoding and
 re-encoding of the response, and the next handler. A call yields the
 outcome, the trace of effects in the order they happen, and the cache
 contents afterwards.
 */
module AuthMiddleware {

  import opened Wrappers
  import opened Php
  import opened Extraction
  import opened CacheKeys

  const AuthUserAttribute := "auth_user"
  const CacheTtl := 3600
  const MePath := "/me?include=company%2Cpermissions%2Cteams.instances"
  const AcceptValue := "application/json,"
  const RefererValue := "https://app.3c.plus/"

  /** `new \Exception('Unauthorized', 401)` */
  const Unauthorized := Throwable(PlainException, "Unauthorized", 401)

  datatype Response = Response(status: int, body: string)

  /** A GET request to the identity API. */
  datatype HttpGet = HttpGet(url: string, headers: seq<(string, string)>)

  /** The Redis store: its entries, and whether a read or a write throws. */
  datatype Store = Store(
    entries: map<string, string>,
    readFault: Option<Throwable>,
    writeFault: Option<Throwable>)

  /**
   The world one call of `process` runs in. `payload` maps a response body
   to `json_encode(json_decode(body)->data)`. Neither call throws by itself:
   a malformed body, or one without `data`, yields the string "null". A
   raised result stands for a throwable made of PHP's warning by an error
   handler the host installs.
   */
  datatype Env = Env(
    baseUrl: Scalar,
    store: Store,
    md5: string -> string,
    upstream: HttpGet -> Fallible<string>,
    payload: string -> Fallible<string>,
    handler: Request -> Fallible<Response>)

  /** The observable effects of one call, in order. */
  datatype Effect =
    | CacheGet(key: string)
    | UpstreamGet(call: HttpGet)
    | CacheSet(key: string, value: string, ttl: int)
    | Handle(request: Request)

  /** The handler's response passed through, or the throwable `process` ends with. */
  datatype Outcome = Delegated(authUser: string, response: Response) | Thrown(exc: Throwable)

  datatype Processed = Processed(outcome: Outcome, trace: seq<Effect>, entries: map<string, string>)

  /** The guard: `is_null($apiToken) || !env('URL_APPLICATION_API')`. */
  predicate Rejected(token: Token, baseUrl: Scalar)
    ensures token.NullToken? ==> Rejected(token, baseUrl)
    ensures !token.NullToken? ==> (Rejected(token, baseUrl) <==> !Truthy(baseUrl))
  {
    token.NullToken? || !Truthy(baseUrl)
  }

  /**
   Passing a non-string token to `searchUserInCache(RedisClient, string)`
   raises a `TypeError`, which is an engine error, not an `\Exception`.
   */
  function ArgumentTypeError(token: Token): (e: Throwable)
    ensures !IsException(e) && Remap(e) == e
  {
    var given := if token.ArrayToken? then "array" else "null";
    Throwable(EngineError,
      "AuthMiddleware::searchUserInCache(): Argument #2 ($apiToken) must be of type string, " + given + " given", 0)
  }

  /** `searchUserInCache`: read the token's key; an absent key reads as null. */
  function SearchUserInCache(store: Store, md5: string -> string, token: string): (r: Fallible<Option<string>>)
    ensures store.readFault.Some? ==> r == Raised(store.readFault.value)
    ensures store.readFault.None? ==> r.Returned?
    ensures r.Returned? && r.value.Some? ==>
      CacheKey(md5, token) in store.entries && store.entries[CacheKey(md5, token)] == r.value.value
    ensures r.Returned? && r.value.None? ==> CacheKey(md5, token) !in store.entries
  {
    if store.readFault.Some? then Raised(store.readFault.value)
    else
      var key := CacheKey(md5, token);
      Returned(if key in store.entries then Some(store.entries[key]) else None)
  }

  /** `if ($cachedUserData)`: null, "" and "0" count as a miss. */
  predicate IsHit(cached: Option<string>)
    ensures IsHit(cached) ==> cached.Some? && cached.value != "" && cached.value != "0"
    ensures cached.Some? && |cached.value| >= 2 ==> IsHit(cached)
  {
    cached.Some? && Truthy(Str(cached.value))
  }

  /**
   The two `catch` clauses around the upstream section: a `GuzzleException`
   becomes a 401, any other `\Exception` a 500, both with the original
   message; an engine error is not caught.
   */
  function Remap(e: Throwable): (r: Throwable)
    ensures r.message == e.message
    ensures IsException(e) ==> r.cls == PlainException
    ensures e.cls == GuzzleException <==> r.code == 401 && IsException(e)
    ensures e.cls == PlainException <==> r.code == 500 && IsException(e)
    ensures !IsException(e) ==> r == e
  {
    match e.cls
    case GuzzleException => Throwable(PlainException, e.message, 401)
    case PlainException => Throwable(PlainException, e.message, 500)
    case EngineError => e
  }

  /** The identity API call for a token. */
  function MeRequest(baseUrl: Scalar, token: string): (call: HttpGet)
    ensures (AuthorizationHeader, "Bearer " + token) in call.headers
  {
    HttpGet(ToStr(baseUrl) + MePath,
      [(AuthorizationHeader, "Bearer " + token), ("Accept", AcceptValue), ("Referer", RefererValue)])
  }

  /** The hit path of `process`, outside the `try`: attach the cached value and delegate. */
  function DelegateCached(req: Request, cached: string, env: Env): (r: Processed)
    ensures r.entries == env.store.entries
    ensures |r.trace| == 1 && r.trace[0] == Handle(WithAttribute(req, AuthUserAttribute, cached))
    ensures r.outcome.Delegated? ==> Answered(req, env, r)
    ensures r.outcome.Thrown? ==> env.handler(WithAttribute(req, AuthUserAttribute, cached)) == Raised(r.outcome.exc)
  {
    var req' := WithAttribute(req, AuthUserAttribute, cached);
    var outcome := match env.handler(req')
      case Returned(response) => Delegated(cached, response)
      case Raised(e) => Thrown(e);
    Processed(outcome, [Handle(req')], env.store.entries)
  }

  /**
   The `try` block of `process`: call the identity API, write the encoded
   `data` to the cache, attach it and delegate; every throwable on the way
   goes through the `catch` clauses.
   */
  function Resolve(req: Request, token: string, env: Env): (r: Processed)
    ensures |r.trace| >= 1 && r.trace[0] == UpstreamGet(MeRequest(env.baseUrl, token))
    ensures WellOrdered(r.trace, req, CacheKey(env.md5, token))
    ensures r.outcome.Delegated? ==> Answered(req, env, r)
    ensures StoreEffect(env, r)
    ensures r.outcome.Thrown? ==> r.outcome.exc.code == 401 || r.outcome.exc.code == 500 || r.outcome.exc.cls == EngineError
    ensures var call := MeRequest(env.baseUrl, token);
      env.upstream(call).Returned? && env.payload(env.upstream(call).value).Returned? && env.store.writeFault.None? ==>
        var data := env.payload(env.upstream(call).value).value;
        var req' := WithAttribute(req, AuthUserAttribute, data);
        env.handler(req').Returned? ==> r.outcome == Delegated(data, env.handler(req').value)
  {
    var call := MeRequest(env.baseUrl, token);
    match env.upstream(call)
    case Raised(e) => Processed(Thrown(Remap(e)), [UpstreamGet(call)], env.store.entries)
    case Returned(body) =>
      match env.payload(body)
      case Raised(e) => Processed(Thrown(Remap(e)), [UpstreamGet(call)], env.store.entries)
      case Returned(data) =>
        var key := CacheKey(env.md5, token);
        var written := [UpstreamGet(call), CacheSet(key, data, CacheTtl)];
        if env.store.writeFault.Some? then
          Processed(Thrown(Remap(env.store.writeFault.value)), written, env.store.entries)
        else
          var req' := WithAttribute(req, AuthUserAttribute, data);
          var outcome := match env.handler(req')
            case Returned(response) => Delegated(data, response)
            case Raised(e) => Thrown(Remap(e));
          var trace := written + [Handle(req')];
          assert trace[1] == CacheSet(key, data, CacheTtl);
          Processed(outcome, trace, env.store.entries[key := data])
  }

  /** Cache-aside resolution of a string token: everything in `process` after the guard. */
  function Authenticate(req: Request, token: string, env: Env): (r: Processed)
    ensures |r.trace| >= 1 && r.trace[0] == CacheGet(CacheKey(env.md5, token))
    ensures WellOrdered(r.trace, req, CacheKey(env.md5, token))
    ensures r.outcome.Delegated? ==> Answered(req, env, r)
    ensures StoreEffect(env, r)
  {
    var read := [CacheGet(CacheKey(env.md5, token))];
    match SearchUserInCache(env.store, env.md5, token)
    case Raised(e) => Processed(Thrown(e), read, env.store.entries)
    case Returned(cached) =>
      var rest := if IsHit(cached) then DelegateCached(req, cached.value, env) else Resolve(req, token, env);
      PrependKeepsOrder(CacheGet(CacheKey(env.md5, token)), rest.trace, req, CacheKey(env.md5, token));
      PrependKeepsStoreEffect(CacheGet(CacheKey(env.md5, token)), env, rest);
      Processed(rest.outcome, read + rest.trace, rest.entries)
  }

  /** Effects that touch the cache all use `key`. */
  predicate KeyedBy(t: seq<Effect>, key: string) {
    forall i :: 0 <= i < |t| && (t[i].CacheGet? || t[i].CacheSet?) ==> t[i].key == key
  }

  /** The handler is invoked at most once, as the last effect. */
  predicate HandlerLast(t: seq<Effect>) {
    forall i :: 0 <= i < |t| && t[i].Handle? ==> i == |t| - 1
  }

  /** Every cache write precedes the handler, which receives exactly the written value. */
  predicate WriteBeforeDelegate(t: seq<Effect>, req: Request) {
    forall i, j :: 0 <= i < |t| && 0 <= j < |t| && t[i].CacheSet? && t[j].Handle? ==>
      i < j && t[j].request == WithAttribute(req, AuthUserAttribute, t[i].value)
  }

  /** The cache is written only right after a call to the identity API. */
  predicate WritesFollowUpstream(t: seq<Effect>) {
    forall i :: 0 <= i < |t| && t[i].CacheSet? ==> 1 <= i && t[i - 1].UpstreamGet?
  }

  /** The ordering promises of a trace, for the cache key `key`. */
  predicate WellOrdered(t: seq<Effect>, req: Request, key: string) {
    && KeyedBy(t, key)
    && HandlerLast(t)
    && WriteBeforeDelegate(t, req)
    && WritesFollowUpstream(t)
  }

  /** A delegated outcome is the handler's answer to the request carrying the attached user, invoked last. */
  predicate Answered(req: Request, env: Env, r: Processed)
    requires r.outcome.Delegated?
  {
    var req' := WithAttribute(req, AuthUserAttribute, r.outcome.authUser);
    && |r.trace| >= 1
    && r.trace[|r.trace| - 1] == Handle(req')
    && env.handler(req') == Returned(r.outcome.response)
  }

  /** The cache ends unchanged, or with one write from the trace applied; never written when writes fail. */
  predicate StoreEffect(env: Env, r: Processed) {
    && (r.entries == env.store.entries
        || exists i :: 0 <= i < |r.trace| && r.trace[i].CacheSet? && r.entries == env.store.entries[r.trace[i].key := r.trace[i].value])
    && (env.store.writeFault.Some? ==> r.entries == env.store.entries)
  }

  /** A cache read in front of a well-ordered trace keeps it well-ordered. */
  lemma PrependKeepsOrder(e: Effect, t: seq<Effect>, req: Request, key: string)
    requires e == CacheGet(key)
    requires WellOrdered(t, req, key)
    ensures WellOrdered([e] + t, req, key)
  {
    var t' := [e] + t;
    forall i | 0 <= i < |t'| && t'[i].CacheSet?
      ensures 1 <= i && t'[i - 1].UpstreamGet?
    {
      assert t'[i] == t[i - 1];
    }
  }

  /** An effect in front of the trace leaves the store promise intact. */
  lemma PrependKeepsStoreEffect(e: Effect, env: Env, r: Processed)
    requires StoreEffect(env, r)
    ensures StoreEffect(env, Processed(r.outcome, [e] + r.trace, r.entries))
  {
    if r.entries != env.store.entries {
      var i :| 0 <= i < |r.trace| && r.trace[i].CacheSet? && r.entries == env.store.entries[r.trace[i].key := r.trace[i].value];
      assert ([e] + r.trace)[i + 1] == r.trace[i];
    }
  }

  /**
   `process`. Its contract gathers the promises that hold on every path;
   the lemmas of module `ProcessPaths` follow each path separately.
   */
  function Process(req: Request, env: Env): (r: Processed)
    ensures r.trace == [] && r.outcome == Thrown(Unauthorized) <==> !Truthy(env.baseUrl)
    ensures ExtractToken(req).StringToken? && Truthy(env.baseUrl) ==>
      && |r.trace| >= 1
      && r.trace[0].CacheGet?
      && KeyedBy(r.trace, CacheKey(env.md5, ExtractToken(req).s))
    ensures HandlerLast(r.trace)
    ensures WriteBeforeDelegate(r.trace, req)
    ensures WritesFollowUpstream(r.trace)
    ensures r.outcome.Delegated? ==> Answered(req, env, r)
    ensures StoreEffect(env, r)
  {
    var token := ExtractToken(req);
    if Rejected(token, env.baseUrl) then Processed(Thrown(Unauthorized), [], env.store.entries)
    else if !token.StringToken? then Processed(Thrown(ArgumentTypeError(token)), [], env.store.entries)
    else Authenticate(req, token.s, env)
  }
}
