/**
 * The request and response shapes of the `fetch` handlers, the client
 * identification used by the rate gate (`getClientIP`) and the dispatch
 * on method and path.
 */
module Routing {
  import opened Wrappers
  import opened Text

  /** The 400 answers of the shorten endpoint, one per error message. */
  datatype ShortenError =
    | UrlRequired                        // "URL is required"
    | UrlTooLong                         // "URL too long (max 2048 characters)"
    | InvalidFormat                      // "Invalid URL format. Only HTTP and HTTPS are allowed."
    | SchemeNotAllowed                   // "This URL scheme is not allowed"
    | FlaggedHarmful(threatType: string) // flagged by the reputation service
    | InvalidRequest                     // the body could not be read as JSON

  /** A response reduced to what distinguishes it: status and payload. */
  datatype Response =
    | TooManyRequests
    | Preflight
    | HomePage
    | Shortened(shortUrl: string, code: string)
    | Rejected(error: ShortenError)
    | Redirect(location: string)
    | NotFound

  function Status(r: Response): (status: int)
    ensures r.Rejected? <==> status == 400
    ensures r.Redirect? <==> status == 302
    ensures 200 <= status < 500
  {
    match r
    case TooManyRequests => 429
    case Preflight => 200
    case HomePage => 200
    case Shortened(_, _) => 200
    case Rejected(_) => 400
    case Redirect(_) => 302
    case NotFound => 404
  }

  /** The JSON body of a POST, as far as the handler reads it: its `url` member. */
  datatype Body = Unreadable | Json(url: Option<string>)

  /**
   * An incoming request: method, `pathname` and `origin` of its URL, the
   * three headers the handlers read, and its body.
   */
  datatype Request = Request(
    verb: string,
    path: string,
    origin: string,
    cfConnectingIp: Option<string>,
    forwardedFor: Option<string>,
    userAgent: Option<string>,
    body: Body)

  /** A header counts only when present and non-empty (JavaScript truthiness). */
  predicate Given(h: Option<string>)
  {
    h.Some? && h.value != ""
  }

  /**
   * `getClientIP`: `CF-Connecting-IP` if given, else the untrimmed text
   * before the first comma of `X-Forwarded-For` if given, else `"unknown"`.
   */
  function ClientIp(cfConnectingIp: Option<string>, forwardedFor: Option<string>): (ip: string)
    ensures Given(cfConnectingIp) ==> ip == cfConnectingIp.value
    ensures !Given(cfConnectingIp) && Given(forwardedFor) ==>
      var xff := forwardedFor.value;
      StartsWith(xff, ip) && ',' !in ip && (|ip| == |xff| || xff[|ip|] == ',')
    ensures !Given(cfConnectingIp) && !Given(forwardedFor) ==> ip == "unknown"
  {
    if Given(cfConnectingIp) then cfConnectingIp.value
    else if Given(forwardedFor) then
      SplitHead(forwardedFor.value, ',');
      Split(forwardedFor.value, ',')[0]
    else "unknown"
  }

  /** The client of a forwarded request is the first hop, spaces and all. */
  lemma FirstForwardedHop(xff: string, first: string, rest: string)
    requires ',' !in first && xff == first + "," + rest
    ensures ClientIp(None, Some(xff)) == first
  {
    if first == "" {
      assert xff[0] == ',';
    }
    var ip := ClientIp(None, Some(xff));
    SplitHead(xff, ',');
    assert xff[|first|] == ',';
    assert ip == xff[..|ip|] && first == xff[..|first|];
  }

  /** The branch of `fetch` a request reaches after the rate gate. */
  datatype Route =
    | PreflightRoute
    | HomeRoute
    | ShortenRoute
    | ResolveRoute(code: string)
    | NoRoute

  /** `/api/shorten` for POST. */
  predicate IsShortenCall(verb: string, path: string)
  {
    path == "/api/shorten" && verb == "POST"
  }

  /**
   * The dispatch of both handlers as written: OPTIONS, then `GET /`, then
   * `POST /api/shorten`, then any other path of at least two characters
   * not starting with `/api`, whose remainder is the code; anything else
   * falls through to 404.
   */
  function RouteOf(verb: string, path: string): (r: Route)
    ensures r.ResolveRoute? ==>
      verb != "OPTIONS" && path == "/" + r.code && r.code != "" && !StartsWith(path, "/api")
  {
    if verb == "OPTIONS" then PreflightRoute
    else if (path == "/" || path == "") && verb == "GET" then HomeRoute
    else if IsShortenCall(verb, path) then ShortenRoute
    else if StartsWith(path, "/") && |path| > 1 && !StartsWith(path, "/api") then
      ResolveRoute(path[1..])
    else NoRoute
  }

  /**
   * The dispatch with the redirect branch excluding only the `/api/`
   * namespace, so that every code the generator can produce is reachable.
   */
  function FixedRouteOf(verb: string, path: string): (r: Route)
    ensures r.ResolveRoute? ==>
      verb != "OPTIONS" && path == "/" + r.code && r.code != "" && !StartsWith(path, "/api/")
    ensures (verb != "OPTIONS" && !IsShortenCall(verb, path) && |path| > 1 && path[0] == '/'
             && !StartsWith(path, "/api/")) ==> r == ResolveRoute(path[1..])
  {
    if verb == "OPTIONS" then PreflightRoute
    else if (path == "/" || path == "") && verb == "GET" then HomeRoute
    else if IsShortenCall(verb, path) then ShortenRoute
    else if StartsWith(path, "/") && |path| > 1 && !StartsWith(path, "/api/") then
      ResolveRoute(path[1..])
    else NoRoute
  }

  lemma SlashPrefix(c: string, p: string)
    ensures StartsWith("/" + c, "/" + p) <==> StartsWith(c, p)
  {
    var s := "/" + c;
    if StartsWith(c, p) {
      assert s[..|p| + 1] == "/" + c[..|p|];
    }
    if StartsWith(s, "/" + p) {
      assert c[..|p|] == s[1..|p| + 1];
    }
  }

  /**
   * As written, the path `/c` of an alphanumeric code `c` reaches the
   * redirect branch exactly when `c` does not begin with `api`, whatever
   * the method other than OPTIONS.
   */
  lemma CodeRouting(verb: string, c: string)
    requires IsAlnumWord(c) && verb != "OPTIONS"
    ensures RouteOf(verb, "/" + c) == ResolveRoute(c) <==> !StartsWith(c, "api")
    ensures StartsWith(c, "api") ==> RouteOf(verb, "/" + c) == NoRoute
  {
    var path := "/" + c;
    SlashPrefix(c, "api");
    assert path[1..] == c;
    assert path != "/api/shorten" by {
      if |path| == |"/api/shorten"| {
        assert path[4] == c[3];
      }
    }
  }

  /** With the fix, every alphanumeric code reaches the redirect branch. */
  lemma FixedCodeRouting(verb: string, c: string)
    requires IsAlnumWord(c) && verb != "OPTIONS"
    ensures FixedRouteOf(verb, "/" + c) == ResolveRoute(c)
  {
    var path := "/" + c;
    assert path[1..] == c;
    assert !StartsWith(path, "/api/") by {
      if |path| >= 5 {
        assert path[4] == c[3];
      }
    }
    assert path != "/api/shorten" by {
      if |path| == |"/api/shorten"| {
        assert path[4] == c[3];
      }
    }
  }

  /** The fix changes nothing outside the redirect branch and keeps `/api/…` unreachable. */
  lemma FixedRoutingAgrees(verb: string, path: string)
    ensures !FixedRouteOf(verb, path).ResolveRoute? ==> RouteOf(verb, path) == FixedRouteOf(verb, path)
    ensures RouteOf(verb, path).ResolveRoute? ==> FixedRouteOf(verb, path) == RouteOf(verb, path)
    ensures StartsWith(path, "/api/") ==> !FixedRouteOf(verb, path).ResolveRoute?
  {
    if StartsWith(path, "/api/") {
      assert path[..4] == "/api";
    }
  }
}
