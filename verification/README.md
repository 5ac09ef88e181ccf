# AuthMiddleware, modelled in Dafny

A model of `AuthMiddleware::process` from the 3C-Plus `auth-middleware` package: a PSR-15 middleware that takes an API token from the request, resolves it to a user through a Redis cache or, on a miss, through the identity API's `/me` endpoint, attaches the result as the `auth_user` request attribute and delegates to the next handler.

`process` is modelled as a pure function `AuthMiddleware.Process(req, env)`. `env` holds everything outside the class:

- the configured base URL, as the PHP value `env('URL_APPLICATION_API')` returns;
- the cache's entries, plus an optional throwable for a failing read and for a failing write;
- MD5;
- the identity API call;
- the JSON step `json_encode(json_decode(body)->data)`. Neither call throws on its own: a malformed body, or one without `data`, gives the string `"null"`. A throwable at this step can only be an `ErrorException` that the host's error handler makes of PHP's warning;
- the next handler.

The result has three parts:

- the outcome: `Delegated(authUser, response)` or `Thrown(throwable)`;
- the trace of effects in order: cache read, identity call, cache write, handler call;
- the cache entries afterwards.

Files:

- `php.dfy`: PHP truthiness, string conversion, and the throwable classes the `catch` clauses tell apart: `GuzzleException`, any other `\Exception`, and engine `\Error`s.
- `segments.dfy`: `explode` on one character, `implode`, and `Arr::last`. It proves both round trips and a separate definition of "the text after the last separator".
- `extraction.dfy`: the request and token extraction (source lines 26-32).
- `cache_keys.dfy`: `getCacheKey`.
- `auth_middleware.dfy`: the guard, the cache read, the hit path, the `try` block with its `catch` clauses, and `Process`.
- `process_paths.dfy`: one lemma per path, plus two lemmas that relate consecutive requests sharing a cache.

Behaviour of the code worth knowing, all of it modelled as written:

- The right side of `??` always gives a string, so the `is_null` check never fires. A request with no token and no header is looked up in the cache with the token `""`, and on a miss the identity API is called with it. See `NullCheckNeverRejects` and `EmptyCredentialReachesCache`.
- `explode(' ', …)` splits on single spaces only. `"Bearer  x"` yields `x` and `"Bearer x "` yields `""`.
- A successful response whose body is malformed or lacks `data` writes the string `"null"` under the token's key and attaches it. `"null"` is truthy, so later requests for the token are served `"null"` from the cache. In the model this is `payload(body) == Returned("null")`, and `ResolvedTokenHitsNextTime` covers it.
- The cached string is tested for truthiness, so a cached `""` or `"0"` counts as a miss.
- The cache read sits outside the `try`, so its throwable escapes unmapped. So does the handler's throwable on the hit path. On the miss path the handler call is inside the `try`, so its `\Exception` is remapped; an `\Error` still escapes.

## Model

| member | source | states |
|---|---|---|
| Php.Truthy | src/AuthMiddleware.php:34 | PHP's conversion to bool: null, false, `""` and `"0"` are falsy; every string of two or more characters is truthy |
| Php.ToStr | src/AuthMiddleware.php:56 | PHP's string conversion for `.`: a string converts to itself, and a truthy value never converts to `""` |
| Segments.Explode | src/AuthMiddleware.php:28-31 | `explode(' ', s)` yields at least one piece, and no piece contains the separator |
| Segments.ImplodeExplode | src/AuthMiddleware.php:28-31 | joining the exploded pieces with the separator gives back the header line, so nothing is lost in the split |
| Segments.ExplodeImplode | src/AuthMiddleware.php:28-31 | exploding separator-free pieces joined by the separator gives back exactly those pieces |
| Segments.LastPieceIff | src/AuthMiddleware.php:27-32 | `Arr::last(explode(' ', s))` equals `t` exactly when `t` is a space-free suffix of `s` that is all of `s` or directly preceded by a space |
| Extraction.QueryTokenSet | src/AuthMiddleware.php:26 | the `isset` test of `??`: the `api_token` key is present and its value is not null |
| Extraction.AuthorizationLine | src/AuthMiddleware.php:30 | `Arr::first(getHeader('Authorization') ?: [''])`: the first Authorization value, or `""` exactly when the header has no values |
| Extraction.ExtractToken | src/AuthMiddleware.php:26-32 | the extracted token is never null, and it is an array only when the `api_token` query value is that array |
| Extraction.QueryTokenWins | src/AuthMiddleware.php:26-27 | a set, non-null `api_token` is the token, even when it is `""`, and changing the headers does not change it |
| Extraction.HeaderTokenIsTextAfterLastSpace | src/AuthMiddleware.php:27-32 | without a query token, the token is the text after the last single space of the first Authorization value, and no other string is |
| Extraction.MissingHeaderGivesEmptyToken | src/AuthMiddleware.php:30 | with no Authorization header, the `['']` fallback gives the token `""`, not null |
| Extraction.HeaderTokenExamples | src/AuthMiddleware.php:28-31 | `"Bearer  x"` gives `x`; `"Bearer x "` gives `""`; `"Bearer abc123"` and `"abc123"` give `abc123` |
| CacheKeys.CacheKey | src/AuthMiddleware.php:82-85 | every cache key starts with `auth_user:` |
| CacheKeys.CacheKeySharedIffDigestShared | src/AuthMiddleware.php:82-85 | two tokens share a cache key exactly when they share an MD5 digest |
| AuthMiddleware.Rejected | src/AuthMiddleware.php:34 | the guard: a null token or a falsy `URL_APPLICATION_API` is rejected; for a non-null token it rejects exactly when the base URL is falsy |
| AuthMiddleware.ArgumentTypeError | src/AuthMiddleware.php:44 | the `TypeError` a non-string token raises at the `string` parameter of `searchUserInCache`; line 44 is outside the `try`, so it escapes as is; being an `\Error`, the `catch` clauses would not change it either |
| AuthMiddleware.IsHit | src/AuthMiddleware.php:46 | the truthiness test `if ($cachedUserData)`: a hit is a non-null string other than `""` and `"0"`, and every cached string of two or more characters is a hit |
| AuthMiddleware.SearchUserInCache | src/AuthMiddleware.php:77-80 | a failing read raises the store's throwable; otherwise the read returns the entry under the token's key, or null exactly when that key is absent |
| AuthMiddleware.Remap | src/AuthMiddleware.php:70-74 | a `GuzzleException` becomes an `\Exception` with code 401, any other `\Exception` one with code 500, both keeping the message; an engine error passes through unchanged |
| AuthMiddleware.MeRequest | src/AuthMiddleware.php:54-62 | the identity call carries `Authorization: Bearer <token>` |
| AuthMiddleware.DelegateCached | src/AuthMiddleware.php:46-49 | the hit path calls the handler once with `auth_user` set to the cached value, keeps the cache unchanged, and returns the handler's response or its unmapped throwable |
| AuthMiddleware.Resolve | src/AuthMiddleware.php:51-74 | the `try` block starts with the identity call, uses only the token's key, writes before delegating, and attaches the written value; the cache changes only through a successful write; when the call, the JSON step, the write and the handler all succeed, the outcome is delegation with the written value and the handler's response; every throwable leaving it carries code 401 or 500 unless it is an engine error |
| AuthMiddleware.Authenticate | src/AuthMiddleware.php:44-74 | the cache read comes first; the read and the write use the same key; a delegated outcome is the handler's answer to the request carrying `auth_user` |
| AuthMiddleware.Process | src/AuthMiddleware.php:24-75 | outcome 401 `Unauthorized` with no effects exactly when the base URL is falsy; every cache access uses the token's key; the handler runs at most once and last; every write directly follows the identity call and precedes the handler, which gets the written value; the cache is unchanged or changed by one traced write, and never when writes fail |
| ProcessPaths.NullCheckNeverRejects | src/AuthMiddleware.php:26-34 | the guard rejects exactly when the base URL is falsy; the `is_null` half never fires |
| ProcessPaths.UnconfiguredIsUnauthorized | src/AuthMiddleware.php:34-36 | a falsy base URL gives 401 `Unauthorized` with no cache read, no identity call and no handler call |
| ProcessPaths.ArrayTokenRaisesTypeError | src/AuthMiddleware.php:44 | an array `api_token` passes the guard and raises an engine `TypeError` at the string-typed lookup, before any effect |
| ProcessPaths.CacheReadFailurePropagates | src/AuthMiddleware.php:44 | a failing cache read propagates unmapped, and nothing follows the read |
| ProcessPaths.CacheHitDelegates | src/AuthMiddleware.php:44-49 | on a truthy cached value the trace is read then handle, with no identity call and no write; the handler's response or throwable comes back unchanged |
| ProcessPaths.MissResolvedWritesThenDelegates | src/AuthMiddleware.php:64-69 | on a miss the trace is read, identity call, write of the encoded data under the same key with TTL 3600, then handle with that same string; a handler throwable goes through the `catch` clauses, so an `\Exception` is remapped and an `\Error` escapes |
| ProcessPaths.UpstreamFailureWritesNothing | src/AuthMiddleware.php:54-74 | a failing identity call writes nothing and calls no handler; a Guzzle failure becomes 401 with the same message |
| ProcessPaths.PayloadFailureWritesNothing | src/AuthMiddleware.php:64-74 | if the host's error handler turns the JSON step's warning into an `ErrorException`, that throwable is remapped, with no cache write and no handler call |
| ProcessPaths.CacheWriteFailureIsInternalError | src/AuthMiddleware.php:66-73 | a failing write leaves the cache unchanged, skips the handler, and ends the request with code 500 when the failure is a non-Guzzle `\Exception` |
| ProcessPaths.ThrownCodes | src/AuthMiddleware.php:34-74 | every throwable carries code 401 or 500, unless it escaped unmapped: a cache-read failure, a hit-path handler throwable, or an engine error |
| ProcessPaths.EmptyCredentialReachesCache | src/AuthMiddleware.php:26-44 | with no query token and no header, the empty token is looked up in the cache instead of rejected |
| ProcessPaths.ResolvedTokenHitsNextTime | src/AuthMiddleware.php:44-69 | after a miss resolved to truthy data, the same token served again hits the cache, skips the identity call and attaches the written string |
| ProcessPaths.FalsyDataIsNeverServed | src/AuthMiddleware.php:46-66 | data encoding to `""` or `"0"` is written, but the next request for the token misses and calls the identity API again |

## Left out

- `loadDotEnv` and `findProjectRoot` (src/AuthMiddleware.php:87-107) do filesystem and dotenv discovery. The base URL is an input `Scalar`. It is assumed to read the same at line 34 and at line 56.
- The model takes `env()`'s result as given. Any translation `env()` makes of words such as `"false"` or `"null"` happens in a helper that is not part of this model.
- Construction of the Redis and Guzzle clients (lines 38-42 and 52) is left out. Both are assumed not to throw. The Redis host and port are not modelled.
- Network I/O is replaced by outcomes: a cache read returns the map entry or fails; the identity call returns a body or a throwable; a cache write succeeds or fails.
- MD5, `json_decode` and `json_encode` are uninterpreted functions supplied by the caller. `json_encode($data->data)` runs twice in the source (lines 66 and 68). Since it is deterministic, it appears once in the model.
- Expiry of the TTL 3600 is not modelled. It is recorded as an argument of the write effect only. Whether Predis turns the positional `3600` into an expiry depends on that library, which is not part of this model.
- `json_encode` can return `false` instead of a string, for example for `INF` decoded from `1e400`. The JSON step yields a string or a throwable, so that `false` result is not modelled.
- `AuthMiddleware.ArgumentTypeError`: the `TypeError` message mimics PHP 8's wording. The exact text belongs to the engine.
- Query values are null, a string, or a list of strings. Nested arrays and other PHP types are not modelled.
- Header names are matched exactly. PSR-7's case-insensitive lookup is the request object's job.
- Concurrency between requests, and duplicate identity calls for the same uncached token, are outside the sequential logic of one call.
- test-middleware.php is a separate, simplified re-implementation with its own stand-ins, and is not modelled.
