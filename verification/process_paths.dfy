/**
 The paths through `process`, one lemma each, and what happens across two
 requests that share a cache.
 */
module ProcessPaths {

  import opened Wrappers
  import opened Php
  import opened Extraction
  import opened CacheKeys
  import opened AuthMiddleware

  /** The cache holds no usable entry for the token: absent, or a falsy string. */
  predicate Miss(env: Env, token: string) {
    var key := CacheKey(env.md5, token);
    key !in env.store.entries || !Truthy(Str(env.store.entries[key]))
  }

  /** The request passes the guard with string token `token` and the cache can be read. */
  predicate Admitted(req: Request, env: Env, token: string) {
    && Truthy(env.baseUrl)
    && ExtractToken(req) == StringToken(token)
    && env.store.readFault.None?
  }

  /** Extraction never yields null, so the guard rejects exactly when the base URL is falsy. */
  lemma NullCheckNeverRejects(req: Request, baseUrl: Scalar)
    ensures Rejected(ExtractToken(req), baseUrl) <==> !Truthy(baseUrl)
  {
  }

  /** Unconfigured base URL: 401 "Unauthorized" with no cache read, no upstream call and no handler call. */
  lemma UnconfiguredIsUnauthorized(req: Request, env: Env)
    requires !Truthy(env.baseUrl)
    ensures Process(req, env) == Processed(Thrown(Unauthorized), [], env.store.entries)
  {
  }

  /** An array `api_token` passes the guard and fails at the string-typed cache lookup, before any effect. */
  lemma ArrayTokenRaisesTypeError(req: Request, env: Env, items: seq<string>)
    requires Truthy(env.baseUrl)
    requires QueryTokenSet(req) && req.query[TokenParameter] == QArray(items)
    ensures Process(req, env).trace == []
    ensures Process(req, env).outcome.Thrown? && Process(req, env).outcome.exc.cls == EngineError
  {
  }

  /** A failing cache read propagates unmapped: nothing follows the read. */
  lemma CacheReadFailurePropagates(req: Request, env: Env, token: string, e: Throwable)
    requires Truthy(env.baseUrl) && ExtractToken(req) == StringToken(token)
    requires env.store.readFault == Some(e)
    ensures Process(req, env) == Processed(Thrown(e), [CacheGet(CacheKey(env.md5, token))], env.store.entries)
  {
  }

  /**
   A truthy cached value is attached as `auth_user` and the handler runs
   once; no upstream call, no write, and the handler's answer (response or
   throwable) comes back unchanged.
   */
  lemma CacheHitDelegates(req: Request, env: Env, token: string)
    requires Admitted(req, env, token) && !Miss(env, token)
    ensures var key := CacheKey(env.md5, token);
      var req' := WithAttribute(req, AuthUserAttribute, env.store.entries[key]);
      var r := Process(req, env);
      && r.trace == [CacheGet(key), Handle(req')]
      && r.entries == env.store.entries
      && (env.handler(req').Returned? ==> r.outcome == Delegated(env.store.entries[key], env.handler(req').value))
      && (env.handler(req').Raised? ==> r.outcome == Thrown(env.handler(req').exc))
  {
  }

  /**
   A miss resolved upstream writes the encoded data under the same key with
   TTL 3600, then attaches that same string and delegates; a handler
   throwable is remapped.
   */
  lemma MissResolvedWritesThenDelegates(req: Request, env: Env, token: string, body: string, data: string)
    requires Admitted(req, env, token) && Miss(env, token)
    requires env.upstream(MeRequest(env.baseUrl, token)) == Returned(body)
    requires env.payload(body) == Returned(data)
    requires env.store.writeFault.None?
    ensures var key := CacheKey(env.md5, token);
      var req' := WithAttribute(req, AuthUserAttribute, data);
      var r := Process(req, env);
      && r.trace == [CacheGet(key), UpstreamGet(MeRequest(env.baseUrl, token)), CacheSet(key, data, 3600), Handle(req')]
      && r.entries == env.store.entries[key := data]
      && (env.handler(req').Returned? ==> r.outcome == Delegated(data, env.handler(req').value))
      && (env.handler(req').Raised? ==> r.outcome == Thrown(Remap(env.handler(req').exc)))
  {
  }

  /** A failed identity call writes nothing and invokes no handler; the throwable is remapped. */
  lemma UpstreamFailureWritesNothing(req: Request, env: Env, token: string, e: Throwable)
    requires Admitted(req, env, token) && Miss(env, token)
    requires env.upstream(MeRequest(env.baseUrl, token)) == Raised(e)
    ensures var r := Process(req, env);
      && r.trace == [CacheGet(CacheKey(env.md5, token)), UpstreamGet(MeRequest(env.baseUrl, token))]
      && r.entries == env.store.entries
      && r.outcome == Thrown(Remap(e))
      && (e.cls == GuzzleException ==> r.outcome.exc == Throwable(PlainException, e.message, 401))
  {
  }

  /**
   When the JSON step raises (only possible when the host's error handler
   turns PHP's warning into an `ErrorException`), nothing is written, no
   handler runs, and the throwable is remapped.
   */
  lemma PayloadFailureWritesNothing(req: Request, env: Env, token: string, body: string, e: Throwable)
    requires Admitted(req, env, token) && Miss(env, token)
    requires env.upstream(MeRequest(env.baseUrl, token)) == Returned(body)
    requires env.payload(body) == Raised(e)
    ensures Process(req, env) == Processed(Thrown(Remap(e)),
      [CacheGet(CacheKey(env.md5, token)), UpstreamGet(MeRequest(env.baseUrl, token))], env.store.entries)
  {
  }

  /** A failing cache write ends the request with the remapped throwable (500 for an exception); the handler never runs. */
  lemma CacheWriteFailureIsInternalError(req: Request, env: Env, token: string, body: string, data: string, e: Throwable)
    requires Admitted(req, env, token) && Miss(env, token)
    requires env.upstream(MeRequest(env.baseUrl, token)) == Returned(body)
    requires env.payload(body) == Returned(data)
    requires env.store.writeFault == Some(e)
    ensures var r := Process(req, env);
      && r.trace == [CacheGet(CacheKey(env.md5, token)), UpstreamGet(MeRequest(env.baseUrl, token)),
                     CacheSet(CacheKey(env.md5, token), data, 3600)]
      && r.entries == env.store.entries
      && r.outcome == Thrown(Remap(e))
      && (e.cls == PlainException ==> r.outcome.exc.code == 500)
  {
  }

  /**
   Every throwable `process` ends with is a 401 or a 500, unless it escaped
   unmapped: a cache-read failure, the handler's own throwable on the hit
   path, or an engine error.
   */
  lemma ThrownCodes(req: Request, env: Env)
    ensures var r := Process(req, env);
      r.outcome.Thrown? ==>
        || r.outcome.exc.code == 401
        || r.outcome.exc.code == 500
        || env.store.readFault == Some(r.outcome.exc)
        || (|r.trace| == 2 && r.trace[1].Handle? && env.handler(r.trace[1].request) == Raised(r.outcome.exc))
        || r.outcome.exc.cls == EngineError
  {
  }

  /** With no query token and no Authorization header, the empty token still reaches the cache. */
  lemma EmptyCredentialReachesCache(req: Request, env: Env)
    requires !QueryTokenSet(req) && GetHeader(req, AuthorizationHeader) == []
    requires Truthy(env.baseUrl)
    ensures |Process(req, env).trace| >= 1
    ensures Process(req, env).trace[0] == CacheGet(CacheKey(env.md5, ""))
  {
    MissingHeaderGivesEmptyToken(req);
  }

  /** The world after a request: the same collaborators over the cache contents it left. */
  function After(env: Env, r: Processed): Env {
    env.(store := env.store.(entries := r.entries))
  }

  /**
   Cache-aside round trip: once a miss has been resolved to truthy data, the
   same token served again hits the cache, skips the identity API and
   attaches the very string that was written.
   */
  lemma ResolvedTokenHitsNextTime(req: Request, req2: Request, env: Env, token: string, body: string, data: string)
    requires Admitted(req, env, token) && Miss(env, token)
    requires env.upstream(MeRequest(env.baseUrl, token)) == Returned(body)
    requires env.payload(body) == Returned(data)
    requires env.store.writeFault.None?
    requires Truthy(Str(data))
    requires ExtractToken(req2) == StringToken(token)
    ensures var env2 := After(env, Process(req, env));
      Process(req2, env2).trace == [CacheGet(CacheKey(env.md5, token)), Handle(WithAttribute(req2, AuthUserAttribute, data))]
  {
    MissResolvedWritesThenDelegates(req, env, token, body, data);
    var env2 := After(env, Process(req, env));
    assert env2.store.entries[CacheKey(env.md5, token)] == data;
    CacheHitDelegates(req2, env2, token);
  }

  /**
   Data that encodes to a falsy string ("0", or "") is written but never
   served: the next request for the token misses and calls the identity API
   again.
   */
  lemma FalsyDataIsNeverServed(req: Request, req2: Request, env: Env, token: string, body: string, data: string)
    requires Admitted(req, env, token) && Miss(env, token)
    requires env.upstream(MeRequest(env.baseUrl, token)) == Returned(body)
    requires env.payload(body) == Returned(data)
    requires env.store.writeFault.None?
    requires !Truthy(Str(data))
    requires ExtractToken(req2) == StringToken(token)
    ensures var env2 := After(env, Process(req, env));
      && Process(req, env).entries[CacheKey(env.md5, token)] == data
      && |Process(req2, env2).trace| >= 2
      && Process(req2, env2).trace[1] == UpstreamGet(MeRequest(env.baseUrl, token))
  {
    MissResolvedWritesThenDelegates(req, env, token, body, data);
    var env2 := After(env, Process(req, env));
    assert Miss(env2, token);
  }
}
