/**
 The incoming request as the middleware sees it (PSR-7 query parameters,
 headers and attributes) and the extraction of the API token from it.
 */
module Extraction {

  import opened Segments

  /** A query parameter value: the host may hand over null, a string, or (for `api_token[]=...`) an array. */
  datatype QueryValue = QNull | QString(s: string) | QArray(items: seq<string>)

  /**
   A server request. `headers` maps a header name, as the request object
   resolves it, to its list of values; `attributes` holds the values
   attached with `withAttribute`.
   */
  datatype Request = Request(
    query: map<string, QueryValue>,
    headers: map<string, seq<string>>,
    attributes: map<string, string>)

  const TokenParameter := "api_token"
  const AuthorizationHeader := "Authorization"

  /** `getHeader(name)`: the header's values, or the empty list when the header is absent. */
  function GetHeader(req: Request, name: string): seq<string> {
    if name in req.headers then req.headers[name] else []
  }

  /** `withAttribute(name, value)`: a copy of the request with one attribute set. */
  function WithAttribute(req: Request, name: string, value: string): Request {
    req.(attributes := req.attributes[name := value])
  }

  /** The token as a PHP value: `null`, a string, or an array. */
  datatype Token = NullToken | StringToken(s: string) | ArrayToken(items: seq<string>)

  function TokenOf(v: QueryValue): Token {
    match v
    case QNull => NullToken
    case QString(s) => StringToken(s)
    case QArray(xs) => ArrayToken(xs)
  }

  /** `isset($query['api_token'])`: the key is present and its value is not null. */
  predicate QueryTokenSet(req: Request)
    ensures QueryTokenSet(req) ==> TokenParameter in req.query && !TokenOf(req.query[TokenParameter]).NullToken?
    ensures TokenParameter in req.query && !req.query[TokenParameter].QNull? ==> QueryTokenSet(req)
  {
    TokenParameter in req.query && !req.query[TokenParameter].QNull?
  }

  /** `Arr::first($request->getHeader('Authorization') ?: [''])`: an empty list is falsy, so it becomes `['']`. */
  function AuthorizationLine(req: Request): (line: string)
    ensures line in GetHeader(req, AuthorizationHeader) || (line == "" && GetHeader(req, AuthorizationHeader) == [])
    ensures GetHeader(req, AuthorizationHeader) != [] ==> line == GetHeader(req, AuthorizationHeader)[0]
  {
    var values := GetHeader(req, AuthorizationHeader);
    if values == [] then "" else values[0]
  }

  /**
   `$query['api_token'] ?? Arr::last(explode(' ', <Authorization line>))`.
   The right operand of `??` is always a string, so the token is never null.
   */
  function ExtractToken(req: Request): (t: Token)
    ensures !t.NullToken?
    ensures t.ArrayToken? ==> QueryTokenSet(req) && req.query[TokenParameter] == QArray(t.items)
  {
    if QueryTokenSet(req) then TokenOf(req.query[TokenParameter])
    else StringToken(Last(Explode(' ', AuthorizationLine(req))))
  }

  /** A set query parameter is the token, whatever it holds (even ""), and the headers play no part. */
  lemma QueryTokenWins(req: Request, headers: map<string, seq<string>>)
    requires QueryTokenSet(req)
    ensures ExtractToken(req) == TokenOf(req.query[TokenParameter])
    ensures ExtractToken(req.(headers := headers)) == ExtractToken(req)
  {
  }

  /**
   Without a query token, the token is the text after the last single space
   of the first Authorization value, and nothing else is.
   */
  lemma HeaderTokenIsTextAfterLastSpace(req: Request, t: string)
    requires !QueryTokenSet(req)
    ensures ExtractToken(req) == StringToken(t) <==> IsTextAfterLast(' ', AuthorizationLine(req), t)
  {
    LastPieceIff(' ', AuthorizationLine(req), t);
  }

  /** With no query token and no Authorization value, the token is the empty string, not null. */
  lemma MissingHeaderGivesEmptyToken(req: Request)
    requires !QueryTokenSet(req)
    requires GetHeader(req, AuthorizationHeader) == []
    ensures ExtractToken(req) == StringToken("")
  {
    assert Explode(' ', "") == [""];
  }

  /** The header is split on single spaces: a doubled space is skipped over, a trailing one leaves "". */
  lemma HeaderTokenExamples(req: Request)
    requires !QueryTokenSet(req)
    ensures AuthorizationLine(req) == "Bearer  x" ==> ExtractToken(req) == StringToken("x")
    ensures AuthorizationLine(req) == "Bearer x " ==> ExtractToken(req) == StringToken("")
    ensures AuthorizationLine(req) == "Bearer abc123" ==> ExtractToken(req) == StringToken("abc123")
    ensures AuthorizationLine(req) == "abc123" ==> ExtractToken(req) == StringToken("abc123")
  {
    var line := AuthorizationLine(req);
    if line == "Bearer  x" {
      assert line[8..] == "x";
      HeaderTokenIsTextAfterLastSpace(req, "x");
    } else if line == "Bearer x " {
      HeaderTokenIsTextAfterLastSpace(req, "");
    } else if line == "Bearer abc123" {
      assert line[7..] == "abc123";
      HeaderTokenIsTextAfterLastSpace(req, "abc123");
    } else if line == "abc123" {
      HeaderTokenIsTextAfterLastSpace(req, "abc123");
    }
  }
}
