/**
 * The `fetch` entry point of both handlers: the rate gate on every request,
 * then the dispatch to the preflight answer, the home page, the shorten
 * branch, the redirect branch or 404.
 */
module Worker {
  import opened Wrappers
  import opened Text
  import opened RateLimit
  import opened Links
  import opened ShortCode
  import opened Routing
  import opened Redirect
  import opened Shorten

  /**
   * A handled request: the response, the store and limiter afterwards, the
   * number of store writes and the suspicion log.
   */
  datatype Outcome = Outcome(
    response: Response,
    entries: map<string, LinkRecord>,
    cache: map<string, seq<int>>,
    writes: nat,
    flagged: bool)

  /** The client address the gate and the stored record use. */
  function ClientOf(req: Request): string
  {
    ClientIp(req.cfConnectingIp, req.forwardedFor)
  }

  /** The rate gate at `now`, then the branch `route` selects. */
  function Serve(variant: Variant, cache: map<string, seq<int>>, entries: map<string, LinkRecord>,
                 req: Request, now: int, o: Oracles, route: Route): Outcome
    requires WellFormed(o)
  {
    var ip := ClientOf(req);
    var gate := Step(cache, ip, now);
    if gate.limited then Outcome(TooManyRequests, entries, gate.cache, 0, false)
    else match route
      case PreflightRoute => Outcome(Preflight, entries, gate.cache, 0, false)
      case HomeRoute => Outcome(HomePage, entries, gate.cache, 0, false)
      case ShortenRoute =>
        var c := ShortenSpec(variant, entries, req.body, req.origin, ip, req.userAgent, o);
        Outcome(c.response, c.entries, gate.cache, c.writes, c.flagged)
      case ResolveRoute(code) =>
        var r := Resolve(entries, code, o.parse, req.origin);
        Outcome(r.response, r.entries, gate.cache, r.writes, false)
      case NoRoute => Outcome(NotFound, entries, gate.cache, 0, false)
  }

  /** The handler with its dispatch as written. */
  function FetchAsWritten(variant: Variant, cache: map<string, seq<int>>, entries: map<string, LinkRecord>,
                          req: Request, now: int, o: Oracles): Outcome
    requires WellFormed(o)
  {
    Serve(variant, cache, entries, req, now, o, RouteOf(req.verb, req.path))
  }

  /** The handler with the redirect branch excluding only `/api/…`. */
  function FetchSpec(variant: Variant, cache: map<string, seq<int>>, entries: map<string, LinkRecord>,
                     req: Request, now: int, o: Oracles): Outcome
    requires WellFormed(o)
  {
    Serve(variant, cache, entries, req, now, o, FixedRouteOf(req.verb, req.path))
  }

  /**
   * Every request passes the rate gate first, OPTIONS and the home page
   * included: a limited client gets 429, the store is untouched and the
   * limiter keeps no record of the refused call.
   */
  lemma RateGateFirst(variant: Variant, cache: map<string, seq<int>>, entries: map<string, LinkRecord>,
                      req: Request, now: int, o: Oracles)
    requires WellFormed(o)
    requires CountRecent(Entry(cache, ClientOf(req)), now - WindowMs) >= MaxRequests
    ensures var out := FetchAsWritten(variant, cache, entries, req, now, o);
      out.response == TooManyRequests && out.entries == entries && out.writes == 0
      && out.cache == Sweep(cache, now - WindowMs) && !out.flagged
    ensures var out := FetchSpec(variant, cache, entries, req, now, o);
      out.response == TooManyRequests && out.entries == entries && out.writes == 0
      && out.cache == Sweep(cache, now - WindowMs) && !out.flagged
  {
    StepDecision(cache, ClientOf(req), now);
  }

  /**
   * A request that is not a successful shorten call never adds a link,
   * and the only record a redirect changes is the one it counts.
   */
  lemma OnlyShortenAddsLinks(variant: Variant, cache: map<string, seq<int>>, entries: map<string, LinkRecord>,
                             req: Request, now: int, o: Oracles)
    requires WellFormed(o)
    ensures var out := FetchAsWritten(variant, cache, entries, req, now, o);
      (!out.response.Shortened? ==> out.entries.Keys == entries.Keys)
      && (!out.response.Shortened? && !out.response.Redirect? ==> out.entries == entries)
    ensures var out := FetchSpec(variant, cache, entries, req, now, o);
      (!out.response.Shortened? ==> out.entries.Keys == entries.Keys)
      && (!out.response.Shortened? && !out.response.Redirect? ==> out.entries == entries)
  {
    ServeAddsLinksOnlyOnShorten(variant, cache, entries, req, now, o, RouteOf(req.verb, req.path));
    ServeAddsLinksOnlyOnShorten(variant, cache, entries, req, now, o, FixedRouteOf(req.verb, req.path));
  }

  /** Whatever the dispatch, only the shorten branch adds keys and only it and the redirect branch write. */
  lemma ServeAddsLinksOnlyOnShorten(variant: Variant, cache: map<string, seq<int>>, entries: map<string, LinkRecord>,
                                    req: Request, now: int, o: Oracles, route: Route)
    requires WellFormed(o)
    ensures var out := Serve(variant, cache, entries, req, now, o, route);
      (!out.response.Shortened? ==> out.entries.Keys == entries.Keys)
      && (!out.response.Shortened? && !out.response.Redirect? ==> out.entries == entries)
  {
    var ip := ClientOf(req);
    if !Step(cache, ip, now).limited {
      match route
      case ShortenRoute =>
        ShortenOutcome(variant, entries, req.body, req.origin, ip, req.userAgent, o);
      case ResolveRoute(code) =>
        ResolveOutcome(entries, code, o.parse, req.origin);
      case _ =>
    }
  }

  /**
   * The round trip: once a URL has been shortened, a later request for
   * `/code` by any client the gate admits is redirected to that very URL,
   * and the link's counter goes from zero to one.
   */
  lemma ShortenedLinkRedirects(variant: Variant, cache: map<string, seq<int>>, entries: map<string, LinkRecord>,
                               post: Request, now: int, o: Oracles,
                               visit: Request, later: int, o': Oracles)
    requires WellFormed(o) && WellFormed(o') && o'.parse == o.parse
    requires post.verb == "POST" && post.path == "/api/shorten"
    requires var out := FetchSpec(variant, cache, entries, post, now, o);
      && out.response.Shortened?
      && visit.verb == "GET" && visit.path == "/" + out.response.code
      && !Step(out.cache, ClientOf(visit), later).limited
    ensures var out := FetchSpec(variant, cache, entries, post, now, o);
      var back := FetchSpec(variant, out.cache, out.entries, visit, later, o');
      && back.response == Redirect(Submitted(post.body).value)
      && back.entries[out.response.code].clicks == Some(1)
  {
    var ip := ClientOf(post);
    assert !Step(cache, ip, now).limited;
    ShortenOutcome(variant, entries, post.body, post.origin, ip, post.userAgent, o);
    var out := FetchSpec(variant, cache, entries, post, now, o);
    var code := out.response.code;
    FixedCodeRouting("GET", code);
    ResolveOutcome(out.entries, code, o.parse, visit.origin);
  }

  /**
   * As written, a URL can be given a code beginning with `api` (here the
   * first candidate, spelled by the draws 0, 15, 8, 0, 1, 2) and stored
   * under it, yet an admitted request for that code is answered 404; the
   * corrected dispatch redirects it.
   */
  lemma ApiCodeUnreachable(variant: Variant, cache: map<string, seq<int>>, entries: map<string, LinkRecord>,
                           post: Request, now: int, o: Oracles, visit: Request, later: int)
    requires WellFormed(o) && o.draws[..DefaultLength] == [0, 15, 8, 0, 1, 2]
    requires "apiabc" !in entries
    requires post.verb == "POST" && post.path == "/api/shorten"
    requires Validate(variant, post.body, o).Accepted?
    requires !Step(cache, ClientOf(post), now).limited
    requires visit.verb == "GET" && visit.path == "/apiabc"
    ensures var out := FetchAsWritten(variant, cache, entries, post, now, o);
      && out.response == Shortened(post.origin + "/apiabc", "apiabc")
      && out == FetchSpec(variant, cache, entries, post, now, o)
      && "apiabc" in out.entries
      && (!Step(out.cache, ClientOf(visit), later).limited ==>
            && FetchAsWritten(variant, out.cache, out.entries, visit, later, o).response == NotFound
            && FetchSpec(variant, out.cache, out.entries, visit, later, o).response
                 == Redirect(Submitted(post.body).value))
  {
    FirstCandidateIsApiabc(o.draws);
    AllocationOutcome(entries.Keys, o.draws);
    assert "/apiabc" == "/" + "apiabc";
    assert StartsWith("apiabc", "api");
    CodeRouting("GET", "apiabc");
    FixedCodeRouting("GET", "apiabc");
    var out := FetchAsWritten(variant, cache, entries, post, now, o);
    ShortenOutcome(variant, entries, post.body, post.origin, ClientOf(post), post.userAgent, o);
    ResolveOutcome(out.entries, "apiabc", o.parse, visit.origin);
  }

  lemma FirstCandidateIsApiabc(draws: seq<int>)
    requires |draws| >= DrawsNeeded && ValidDraws(draws)
    requires draws[..DefaultLength] == [0, 15, 8, 0, 1, 2]
    ensures Candidate(draws, 0) == "apiabc"
    ensures IsAlnumWord("apiabc")
  {
    AlphabetParts();
    LowerRun(0);
    LowerRun(15);
    LowerRun(8);
    LowerRun(1);
    LowerRun(2);
    var c := Candidate(draws, 0);
    assert c[0] == 'a' && c[1] == 'p' && c[2] == 'i' && c[3] == 'a' && c[4] == 'b' && c[5] == 'c';
  }

  /** One edge handler instance: its variant, its in-memory limiter and its link store. */
  class Handler {
    const variant: Variant
    const limiter: RateLimiter
    const store: LinkStore

    constructor (variant: Variant, initial: map<string, LinkRecord>)
      ensures this.variant == variant
      ensures fresh(limiter) && fresh(store)
      ensures limiter.cache == map[] && store.entries == initial
    {
      this.variant := variant;
      limiter := new RateLimiter();
      store := new LinkStore(initial);
    }

    /** `fetch(request, env)` with the clock, randomness and services supplied. */
    method Fetch(req: Request, now: int, o: Oracles) returns (response: Response, flagged: bool)
      requires WellFormed(o)
      modifies limiter, store
      ensures var out := FetchSpec(variant, old(limiter.cache), old(store.entries), req, now, o);
        response == out.response && flagged == out.flagged
        && limiter.cache == out.cache && store.entries == out.entries
        && store.writes == old(store.writes) + out.writes
    ensures response.Shortened? ==> old(store.lookups) < store.lookups <= old(store.lookups) + MaxAttempts
    ensures response.Redirect? ==> store.lookups == old(store.lookups) + 1
    ensures !response.Shortened? ==> store.lookups <= old(store.lookups) + 1
    ensures response.Rejected? || response == TooManyRequests || response == Preflight || response == HomePage
      ==> store.lookups == old(store.lookups)
    {
      var ip := ClientIp(req.cfConnectingIp, req.forwardedFor);
      var limited := limiter.IsRateLimited(ip, now);
      if limited {
        return TooManyRequests, false;
      }
      flagged := false;
      match FixedRouteOf(req.verb, req.path)
      case PreflightRoute =>
        response := Preflight;
      case HomeRoute =>
        response := HomePage;
      case ShortenRoute =>
        response, flagged := ShortenUrl(variant, store, req.body, req.origin, ip, req.userAgent, o);
      case ResolveRoute(code) =>
        response := ResolveCode(store, code, o.parse, req.origin);
      case NoRoute =>
        response := NotFound;
    }
  }
}
