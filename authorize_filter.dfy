/**
 * The gateway's global authorization filter (AuthorizeGlobalFilter). Per request: a path
 * matching an exclusion pattern is forwarded as it is; otherwise the first "authorization"
 * header value is checked by JwtTool; a rejected token ends the exchange with 401, and an
 * accepted one is forwarded on a new exchange whose request carries the user id in the
 * "user-info" header. An exception from the JWT library other than the ones parseToken
 * catches is not caught here either: it leaves the filter. AntPathMatcher is an oracle:
 * the `matches` field.
 */
module AuthorizeFilter {
  import opened Wrappers
  import opened JavaLong
  import JwtTool

  /** Header name to its values; names are taken as already lower-case. */
  type Headers = map<string, seq<string>>

  /** A ServerHttpRequest as the filter sees it; requests are never changed in place. */
  datatype Request = Request(path: string, headers: Headers)

  const AuthorizationHeader := "authorization"
  const UserInfoHeader := "user-info"
  const UnauthorizedStatus := 401

  /** The ServerHttpResponse: its raw status code (None while unset) and whether it is complete. */
  class Response {
    var statusCode: Option<int>
    var complete: bool

    constructor ()
      ensures statusCode == None && !complete
    {
      statusCode := None;
      complete := false;
    }
  }

  /** A ServerWebExchange: a request together with the response it shares. */
  class Exchange {
    const request: Request
    const response: Response

    constructor (request: Request, response: Response)
      ensures this.request == request && this.response == response
    {
      this.request := request;
      this.response := response;
    }
  }

  /**
   * What filter hands on: the exchange passed to chain.filter, the completed response, or
   * an exception thrown out of filter.
   */
  datatype FilterResult = Chained(exchange: Exchange) | Completed(response: Response) | Raised(exception: string)

  /** The outcomes of the filter, as a function of the request. */
  datatype Decision = PassThrough | Reject | ForwardAs(userId: Long) | Escape(exception: string)

  /** The token: the first value of the authorization header, or null when there is none. */
  function TokenOf(headers: Headers): (token: Option<string>)
    ensures token.Some? <==> AuthorizationHeader in headers && |headers[AuthorizationHeader]| > 0
    ensures token.Some? ==> token.value == headers[AuthorizationHeader][0]
  {
    if AuthorizationHeader in headers && |headers[AuthorizationHeader]| > 0
    then Some(headers[AuthorizationHeader][0]) else None
  }

  /** The request forwarded downstream: the same path and headers, with user-info set to the id. */
  function WithUserInfo(request: Request, userId: Long): (r: Request)
    ensures r.path == request.path
    ensures r.headers.Keys == request.headers.Keys + {UserInfoHeader}
    ensures r.headers[UserInfoHeader] == [ToString(userId)]
    ensures forall name :: name in request.headers && name != UserInfoHeader ==> r.headers[name] == request.headers[name]
  {
    request.(headers := request.headers[UserInfoHeader := [ToString(userId)]])
  }

  /** The decision the filter takes for a request, given whether its path is excluded. */
  function Decide(excluded: bool, headers: Headers, jwt: JwtTool.Oracles): (d: Decision)
    ensures d == PassThrough <==> excluded
    ensures d == Reject <==> !excluded && JwtTool.ParseToken(TokenOf(headers), jwt).Failure?
                             && JwtTool.ParseToken(TokenOf(headers), jwt).error.UnauthorizedException?
    ensures !excluded && JwtTool.ParseToken(TokenOf(headers), jwt).Success? ==>
              d == ForwardAs(JwtTool.ParseToken(TokenOf(headers), jwt).value)
    ensures d.ForwardAs? ==> !excluded && JwtTool.ParseToken(TokenOf(headers), jwt) == Success(d.userId)
    ensures d.Escape? <==> !excluded && TokenOf(headers).Some? && JwtTool.Escapes(TokenOf(headers).value, jwt)
    ensures d.Escape? ==> JwtTool.ParseToken(TokenOf(headers), jwt) == Failure(JwtTool.LibraryException(d.exception))
  {
    if excluded then PassThrough
    else match JwtTool.ParseToken(TokenOf(headers), jwt)
      case Success(userId) => ForwardAs(userId)
      case Failure(thrown) =>
        if thrown.UnauthorizedException? then Reject else Escape(thrown.exception)
  }

  /** A request to a gated path without an authorization header is rejected. */
  lemma MissingTokenRejected(headers: Headers, jwt: JwtTool.Oracles)
    requires AuthorizationHeader !in headers || headers[AuthorizationHeader] == []
    ensures Decide(false, headers, jwt) == Reject
  {
  }

  /**
   * A gated request whose first authorization value is a valid token for user n is
   * forwarded as n, and the user-info header downstream parses back to exactly n.
   */
  lemma ValidTokenForwardedWithUser(request: Request, jwt: JwtTool.Oracles, token: string, userId: Long)
    requires AuthorizationHeader in request.headers && |request.headers[AuthorizationHeader]| > 0
    requires request.headers[AuthorizationHeader][0] == token
    requires jwt.decode(token).Some?
    requires jwt.verify(jwt.decode(token).value) == JwtTool.Verified(true)
    requires jwt.validateDate(jwt.decode(token).value) == JwtTool.InDate
    requires JwtTool.UserClaim in jwt.decode(token).value.payload
    requires jwt.decode(token).value.payload[JwtTool.UserClaim] == ToString(userId)
    ensures Decide(false, request.headers, jwt) == ForwardAs(userId)
    ensures ParseLong(WithUserInfo(request, userId).headers[UserInfoHeader][0]) == Some(userId)
  {
    JwtTool.ValidTokenYieldsUser(token, jwt, userId);
    ParseToStringRoundTrip(userId);
  }

  /**
   * A user-info header sent by the client never reaches a gated service: whatever it
   * held, the forwarded request carries the id from the token.
   */
  lemma UserInfoNotSpoofable(request: Request, spoofed: seq<string>, userId: Long)
    ensures WithUserInfo(request.(headers := request.headers[UserInfoHeader := spoofed]), userId)
            == WithUserInfo(request, userId)
  {
    var spoof := request.(headers := request.headers[UserInfoHeader := spoofed]);
    assert WithUserInfo(spoof, userId).headers == WithUserInfo(request, userId).headers;
  }

  /** The filter bean with its injected collaborators. */
  class AuthorizeGlobalFilter {
    const excludePaths: seq<string>         // authProperties.getExcludePaths()
    const matches: (string, string) -> bool  // antPathMatcher.match(pattern, path)
    const jwt: JwtTool.Oracles              // jwtTool and the libraries behind it

    constructor (excludePaths: seq<string>, matches: (string, string) -> bool, jwt: JwtTool.Oracles)
      ensures this.excludePaths == excludePaths && this.matches == matches && this.jwt == jwt
    {
      this.excludePaths := excludePaths;
      this.matches := matches;
      this.jwt := jwt;
    }

    /** Some exclusion pattern matches the path. */
    predicate Excluded(path: string) {
      exists i :: 0 <= i < |excludePaths| && matches(excludePaths[i], path)
    }

    /** isExclude: linear search over the patterns, stopping at the first match. */
    method IsExclude(path: string) returns (excluded: bool)
      ensures excluded <==> Excluded(path)
      ensures excludePaths == [] ==> !excluded
    {
      var i := 0;
      while i < |excludePaths|
        invariant 0 <= i <= |excludePaths|
        invariant forall j :: 0 <= j < i ==> !matches(excludePaths[j], path)
      {
        if matches(excludePaths[i], path) {
          return true;
        }
        i := i + 1;
      }
      return false;
    }

    /**
     * filter: forwards an excluded request untouched, ends a request with a rejected token
     * with status 401, lets an uncaught library exception through, and forwards any other
     * request on a fresh exchange carrying user-info.
     */
    method Filter(exchange: Exchange) returns (result: FilterResult)
      modifies exchange.response
      ensures var d := Decide(Excluded(exchange.request.path), exchange.request.headers, jwt);
        && (d == PassThrough ==> result == Chained(exchange) && unchanged(exchange.response))
        && (d == Reject ==> result == Completed(exchange.response)
                            && exchange.response.statusCode == Some(UnauthorizedStatus) && exchange.response.complete)
        && (d.ForwardAs? ==> result.Chained? && fresh(result.exchange)
                             && result.exchange.request == WithUserInfo(exchange.request, d.userId)
                             && result.exchange.response == exchange.response
                             && unchanged(exchange.response))
        && (d.Escape? ==> result == Raised(d.exception) && unchanged(exchange.response))
    {
      var request := exchange.request;
      var response := exchange.response;
      var excluded := IsExclude(request.path);
      if excluded {
        return Chained(exchange);
      }
      var token: Option<string> := None;
      if AuthorizationHeader in request.headers && |request.headers[AuthorizationHeader]| > 0 {
        token := Some(request.headers[AuthorizationHeader][0]);
      }
      var parsed := JwtTool.ParseToken(token, jwt);
      if parsed.Failure? && parsed.error.LibraryException? {
        return Raised(parsed.error.exception);
      }
      if parsed.Failure? {
        response.statusCode := Some(UnauthorizedStatus);
        response.complete := true;
        return Completed(response);
      }
      var userInfo := ToString(parsed.value);
      var mutated := new Exchange(request.(headers := request.headers[UserInfoHeader := [userInfo]]), response);
      return Chained(mutated);
    }

    /** getOrder: -1, so the filter runs ahead of every filter of order 0 or later. */
    function GetOrder(): (order: int)
      ensures order == -1
    {
      -1
    }
  }
}
