# Edge URL shortener handlers, modelled in Dafny

This project models the two edge `fetch` handlers of the URL shortener:

- `workers/index.js` is the standalone Cloudflare Worker.
- `public/_worker.js` is the Pages worker.

Both handlers share one core, which the model states once. A `Variant`
(`Pages` or `Workers`) selects the three places where the standalone worker
does more:

- it runs the hostname heuristics (log only);
- it asks the reputation service (Safe Browsing, fail-open);
- it stores the client address and `User-Agent` in each link record.

Each request passes through these steps:

1. The sliding-window rate gate (`isRateLimited` keyed by `getClientIP`).
   Every request goes through it.
2. Dispatch on method and path.
3. One of these branches:
   - the shorten branch: checks in a fixed order, the collision-avoiding
     allocation of a short code, one store write;
   - the redirect branch: syntax check, lookup, read-modify-write of the
     click counter, re-validation of the stored target;
   - a 404.

Modules, one per concern:

- `Text`: ASCII case folding, prefix, suffix and substring tests, `split`.
- `UrlCheck`: `isValidUrl` and `isMaliciousUrl` over an abstract URL parse.
- `Heuristics`: `isSuspiciousUrl`.
- `SafeBrowsing`: the decision part of `checkSafeBrowsing`.
- `RateLimit`: the `RateLimiter` class holding the timestamp map, proved
  against the one-call function `Step`.
- `Links`: the link record and the `LinkStore` class.
  - It stands for the `URLS` key-value binding.
  - It has ghost counters of lookups and writes.
- `ShortCode`: `generateShortCode` and the allocation loop. Both are proved
  against the functions `Spell` and `Allocation`.
- `Routing`: requests, responses, `getClientIP` and the dispatch.
- `Redirect`: the redirect branch, as the function `Resolve` and the method
  `ResolveCode`.
- `Shorten`: the shorten branch, as `Validate`, `ShortenSpec` and the
  method `ShortenUrl`.
- `Worker`: the `Handler` class whose `Fetch` method is proved against
  `FetchSpec`, plus end-to-end lemmas.

The environment comes in as values:

- The WHATWG URL parser is an oracle (`Parser`). It maps a string to
  `ParseError` or to a `(protocol, hostname)` pair.
- `Math.random` is a sequence of draws in `[0, 62)`.
- `Date.now()` is a parameter `now`.
- `new Date().toISOString()` is a string `createdAt`.
- The reputation service's answer is a `LookupOutcome`.

Behaviour of the handlers worth knowing:

- A phishing keyword on a free top-level domain is logged and never refused
  (`workers/index.js:507-512`). `Heuristics` and
  `Shorten.SuspicionDoesNotBlock` state this.
- A URL whose protocol is not `http:`/`https:`, such as
  `javascript:alert(1)`, is refused with the format error ("Invalid URL
  format"), not with "This URL scheme is not allowed". The reason is that
  `isValidUrl` runs before `isMaliciousUrl` (`workers/index.js:485-505`).
  The scheme error only arises for an http(s) URL that contains a blocked
  name, such as `https://x.com/?u=javascript:1`.
  See `Shorten.DisallowedProtocolIsFormatError`.
- Re-validation at redirect time uses only `isValidUrl` and
  `isMaliciousUrl`. It does not re-run the heuristics or the reputation
  lookup (`workers/index.js:591-597`).
- Codes are not guaranteed unique. The eight-character fallback code is
  written without a lookup and can replace an existing link:
  `Shorten.ShortenOutcome` states `entries[code := record]` and promises
  freshness only for six-character codes.

## Model

| member | source | states |
|---|---|---|
| Text.Lower | workers/index.js:286 | the lower-cased hostname has the same length and each character is the ASCII lower case of the original |
| Text.Split | workers/index.js:299 | `split` yields one more piece than there are separators and no piece contains the separator |
| Text.JoinSplit | workers/index.js:299 | joining the pieces with the separator gives back the string, so the split loses nothing |
| Text.SplitHead | workers/index.js:420 | the first piece of a split is the longest separator-free prefix: it ends at the end of the string or just before the first separator |
| UrlCheck.IsValidUrl | workers/index.js:257-264 | `isValidUrl`: the string parses and its protocol is `http:` or `https:` |
| UrlCheck.MatchesAnyPattern | workers/index.js:272-276 | the early-return loop over the patterns is true exactly when some pattern occurs in the string, ignoring case |
| UrlCheck.IsMaliciousUrl | workers/index.js:266-281 | anything that is not a valid http(s) URL is malicious; a valid one is malicious exactly when one of javascript:, data:, vbscript:, file:, about:, chrome: occurs in the raw string in any letter case |
| UrlCheck.MatchIgnoresCase | workers/index.js:188-195 | two strings that agree up to ASCII case match the same `/…/i` patterns |
| UrlCheck.EmbeddedSchemeIsBlocked | workers/index.js:272-276 | an http(s) URL with `javascript:` (any case) anywhere inside it is malicious |
| Heuristics.IsDottedQuad | workers/index.js:294-297 | `/^(\d{1,3}\.){3}\d{1,3}$/`: four dot-separated runs of one to three digits, without range check |
| Heuristics.SuspiciousHost | workers/index.js:286-331 | the four tests of `isSuspiciousUrl` on the lower-cased hostname |
| Heuristics.IsSuspiciousUrl | workers/index.js:283-335 | `isSuspiciousUrl`: an unparseable string is suspicious, otherwise the lower-cased hostname decides |
| Heuristics.SuspicionByHostname | workers/index.js:283-335 | a string the parser refuses is suspicious; two parsed URLs whose hostnames agree up to ASCII case get the same verdict, whatever their protocols |
| Heuristics.LabelCount | workers/index.js:299-300 | the label count is the number of dots plus one |
| Heuristics.SuspiciousHostReference | workers/index.js:283-335 | a host is suspicious exactly when it has a blocked suffix, has dotted-quad shape, has more than three dots, or contains a keyword and ends in .pw, .cc or .ws (the only free suffixes the blocked list lacks) |
| Heuristics.DottedQuadHasFourLabels | workers/index.js:294-302 | a dotted-quad host has exactly four labels, so the label rule never fires on it |
| Heuristics.KeywordAloneIsNotSuspicious | workers/index.js:304-331 | a keyword host on an ordinary suffix, with at most four labels and no dotted-quad shape, is not suspicious |
| Heuristics.BlockedSuffixExample | workers/index.js:288-292 | `secure-login.tk` is suspicious |
| Heuristics.KeywordAndFreeSuffixIsSuspicious | workers/index.js:304-329 | a keyword host ending in .pw, .cc or .ws is suspicious |
| Heuristics.KeywordAndFreeSuffixExample | workers/index.js:304-329 | `paypal-verify.pw` is suspicious |
| SafeBrowsing.EffectiveKey | workers/index.js:515-518 | the environment key is used when non-empty, else the shipped placeholder |
| SafeBrowsing.CheckSafeBrowsing | workers/index.js:338-389 | the verdict is unsafe exactly when a usable key was given and the service answered with a non-empty match list; the threat comes from the first match; a missing or placeholder key, a non-OK status, an exception or an empty list gives safe (fail-open) |
| SafeBrowsing.UnsetKeyNeverFlags | workers/index.js:338-342 | with no key configured nothing is ever flagged |
| RateLimit.Sweep | workers/index.js:395-399 | the map the sweep loop leaves: every entry the coerced `timestamp < windowStart` test deletes is gone |
| RateLimit.SweepKeepsActive | workers/index.js:395-399 | the sweep only deletes, and never deletes a client with a timestamp inside the window or with two or more timestamps |
| RateLimit.Step | workers/index.js:391-414 | one call of `isRateLimited`: sweep, count, refuse at 10, otherwise append `now` |
| RateLimit.CountRecent | workers/index.js:401-403 | the filtered count never exceeds the list length |
| RateLimit.SweepCoercion | workers/index.js:395-399 | the sweep's array-to-number comparison deletes only an empty list or a one-element list with an old timestamp; lists of two or more survive |
| RateLimit.CountRecentAppend | workers/index.js:401-403 | the count of a concatenation is the sum of the counts |
| RateLimit.CountRecentAntitone | workers/index.js:401-403 | a later window start never raises the count |
| RateLimit.CountRecentAll | workers/index.js:401-403 | when every timestamp is after the window start, all of them count |
| RateLimit.CountRecentNone | workers/index.js:401-403 | when no timestamp is after the window start, the count is zero |
| RateLimit.SweepKeepsRecentCount | workers/index.js:395-403 | the sweep never changes a client's count at or after its window start, so the decision rests on the filter |
| RateLimit.StepDecision | workers/index.js:401-411 | a call is refused exactly when the client has 10 timestamps after `now - 60000`; a refusal records nothing beyond the sweep; an admission appends `now` and raises the count by one |
| RateLimit.StepFrame | workers/index.js:395-411 | every other client's list is kept unchanged unless the coerced sweep test deletes it |
| RateLimit.ExpiredHistoryIsAdmitted | workers/index.js:401-407 | a client whose timestamps have all left the window is admitted |
| RateLimit.StepKeepsWindowBounded | workers/index.js:391-414 | with a clock that does not go backwards, no client ever has more than 10 timestamps inside the window |
| RateLimit.SweepEntry | workers/index.js:395-399 | after the sweep a client's list is either gone or unchanged |
| RateLimit.CountRecentGap | workers/index.js:401-403 | two window starts with no timestamp between them give the same count |
| RateLimit.CountRecentZero | workers/index.js:401-403 | a zero count means no timestamp is after the window start |
| RateLimit.BurstCall | workers/index.js:401-411 | inside the window of a burst below the maximum, a call is admitted and the burst's count rises by one |
| RateLimit.BurstFull | workers/index.js:401-407 | once a burst has 10 calls, every further call inside its window is refused |
| RateLimit.ReplayConcat | workers/index.js:391-414 | replaying two runs of calls one after the other leaves the same map as replaying them as one run |
| RateLimit.BurstReplay | workers/index.js:391-414 | after the calls of a fresh burst, the client has exactly that many timestamps in the window |
| RateLimit.BurstAllAdmitted | workers/index.js:391-414 | up to ten calls from a fresh client inside one window are all admitted |
| RateLimit.FullBurstLimits | workers/index.js:405-407 | after ten calls inside one window, the next call in that window is refused |
| RateLimit.EleventhRequestIsLimited | workers/index.js:391-414 | of eleven calls inside one window from a fresh client, the first ten are admitted and the eleventh is refused |
| RateLimit.RateLimiter.constructor | workers/index.js:186 | the limiter starts with an empty map |
| RateLimit.RateLimiter.IsRateLimited | workers/index.js:391-414 | the sweep loop, count and append leave the decision and the map that `Step` describes |
| Links.LinkStore.constructor | workers/index.js:546 | the store starts with the given links and no traffic |
| Links.LinkStore.Get | workers/index.js:546 | a lookup returns the stored record exactly when the key is present, and counts one lookup |
| Links.LinkStore.Put | workers/index.js:562 | a write replaces the record at the key, leaves the others, and counts one write |
| ShortCode.Spell | workers/index.js:247-255 | the code has one character per draw: the alphabet character the draw selects |
| ShortCode.AlphabetParts | workers/index.js:248-249 | the alphabet is the lower-case letters, then the upper-case letters, then the digits |
| ShortCode.AlnumAt | workers/index.js:248-249 | every alphabet position holds a character of `[a-zA-Z0-9]` |
| ShortCode.PositionOf | workers/index.js:248-249 | every character of `[a-zA-Z0-9]` occurs in the alphabet |
| ShortCode.AlphabetIsAlnum | workers/index.js:248-249 | the alphabet has 62 characters and is exactly the class `[a-zA-Z0-9]` |
| ShortCode.LowerRun | workers/index.js:248-249 | the lower-case run is `a`..`z` in order |
| ShortCode.UpperRun | workers/index.js:248-249 | the upper-case run is `A`..`Z` in order |
| ShortCode.DigitRun | workers/index.js:248-249 | the digit run is `0`..`9` in order |
| ShortCode.SpelledCodeIsAlnum | workers/index.js:247-255 | every generated code passes the redirect's `/^[a-zA-Z0-9]+$/` check |
| ShortCode.GenerateShortCode | workers/index.js:247-255 | the loop yields exactly `length` characters, character `i` selected by draw `i`, all alphanumeric |
| ShortCode.Allocation | workers/index.js:539-552 | the code and attempt count of the do-while loop: the first free candidate of the first nine, else the eight-character fallback |
| ShortCode.ProbeOutcome | workers/index.js:544-552 | from any attempt on, the loop stops within ten attempts, after taken candidates only, at a free candidate or at the fallback |
| ShortCode.AllocationOutcome | workers/index.js:539-552 | at most 10 lookups; a free six-character candidate, every earlier one taken; or, when the first nine are taken, the unchecked eight-character fallback, which replaces even a free tenth candidate; the code is alphanumeric |
| ShortCode.AllocateCode | workers/index.js:539-552 | the do-while loop returns the code and attempt count `Allocation` describes and makes exactly that many lookups |
| Routing.Status | workers/index.js:432-601 | refusals are 400, redirects 302, and every answer is a 2xx, 3xx or 4xx status |
| Routing.ClientIp | workers/index.js:416-422 | CF-Connecting-IP if non-empty, else the untrimmed text before the first comma of X-Forwarded-For, else `unknown` |
| Routing.FirstForwardedHop | workers/index.js:419-420 | for `first,rest` with no comma in `first`, the client is `first`, untrimmed |
| Routing.RouteOf | workers/index.js:448-601 | the redirect branch is reached only by a request other than OPTIONS, for `/code` with a non-empty code, on a path not starting with `/api` |
| Routing.FixedRouteOf | workers/index.js:577 | the corrected dispatch sends `/code` to the redirect branch exactly when the request is not OPTIONS, not the shorten call, and not under `/api/` |
| Routing.SlashPrefix | workers/index.js:577 | `/c` starts with `/p` exactly when `c` starts with `p` |
| Routing.CodeRouting | workers/index.js:577-582 | as written, `/c` for an alphanumeric `c` reaches the redirect branch exactly when `c` does not start with `api`; otherwise it is a 404 |
| Routing.FixedCodeRouting | workers/index.js:577 | with the fix, every alphanumeric code reaches the redirect branch |
| Routing.FixedRoutingAgrees | workers/index.js:577 | the fix routes every other request as before and keeps `/api/…` out of the redirect branch |
| Redirect.Counted | workers/index.js:588 | the written-back record has one more click (a missing counter counts as 0) and every other field unchanged |
| Redirect.RedirectTarget | workers/index.js:591-597 | the client is sent to the stored URL when it passes both checks, and never anywhere but there or the origin |
| Redirect.Resolve | workers/index.js:577-601 | the redirect branch on a store: 404 for a malformed or unknown code, else the counted record written back and a 302 to `RedirectTarget` |
| Redirect.ResolveOutcome | workers/index.js:577-601 | a malformed or unknown code is a 404 that changes nothing; a known code is always counted with one write, even when its target is refused, and the other links stay unchanged |
| Redirect.ResolveTwice | workers/index.js:586-589 | two visits add exactly two clicks and answer the same |
| Redirect.ResolveCode | workers/index.js:577-601 | the branch does what `Resolve` describes; a malformed code is refused without a lookup |
| Shorten.Validate | workers/index.js:465-537 | the checks in order: unreadable body, missing url, length over 2048, not valid, blocked pattern, reputation (standalone worker only); each error arises exactly when every earlier check passed and its own failed; an accepted URL is the submitted one and passes every check; a reputation refusal carries the threat type of the service's first match |
| Shorten.ShortenSpec | workers/index.js:463-575 | the shorten branch on a store: the checks of `Validate`, then the code of `Allocation` and one write of `NewRecord` |
| Shorten.ValidateComplete | workers/index.js:468-537 | every URL that passes every check is accepted |
| Shorten.DisallowedProtocolIsFormatError | workers/index.js:485-505 | a parsed URL with a protocol other than http/https is refused as a format error |
| Shorten.PagesIgnoresReputation | public/_worker.js:320-365 | the Pages handler's checks do not depend on the key or the reputation service |
| Shorten.SuspicionDoesNotBlock | workers/index.js:507-512 | a suspicious URL with a safe verdict is logged and accepted |
| Shorten.NewRecord | workers/index.js:554-560 | the record holds the URL, the creation time and zero clicks; the standalone worker adds the client address and the user agent or `unknown`; the Pages record has neither (public/_worker.js:383-387) |
| Shorten.ShortenOutcome | workers/index.js:463-568 | a refusal is a 400 that writes nothing; a success writes exactly one record, at an alphanumeric code of 6 characters that was free or 8 unchecked characters, holding the submitted URL with zero clicks, and answers `origin/code` |
| Shorten.ShortenUrl | workers/index.js:463-575 | the branch does what `ShortenSpec` describes; a refusal makes no lookup; a success makes between one and ten |
| Worker.RateGateFirst | workers/index.js:432-440 | for the handler as written and with the corrected dispatch alike: every request is gated first, OPTIONS and the home page included; a limited client gets 429, the store is untouched with no write, and the refused call is not recorded |
| Worker.OnlyShortenAddsLinks | workers/index.js:426-602 | for the handler as written and with the corrected dispatch alike: only a successful shorten call adds a link; only shorten and redirect change the store |
| Worker.ServeAddsLinksOnlyOnShorten | workers/index.js:432-602 | whatever branch the dispatch selects after the gate, only the shorten branch adds keys, and only it and the redirect branch change the store |
| Worker.ShortenedLinkRedirects | workers/index.js:554-595 | with the corrected dispatch (`FixedRouteOf`), once a URL is shortened, a later admitted GET of its code redirects to that URL and sets its counter to 1 |
| Worker.ApiCodeUnreachable | workers/index.js:577 | as written, a URL stored under the generated code `apiabc` is answered 404; the corrected dispatch redirects it |
| Worker.FirstCandidateIsApiabc | workers/index.js:247-255 | the draws 0, 15, 8, 0, 1, 2 spell `apiabc` |
| Worker.Handler.constructor | workers/index.js:186 | a fresh handler has an empty limiter and the given links |
| Worker.FetchAsWritten | workers/index.js:426-602 | the handler as written: the rate gate, then the dispatch of `RouteOf` |
| Worker.FetchSpec | workers/index.js:426-602 | the handler with the corrected dispatch `FixedRouteOf`; the specification of `Handler.Fetch` |
| Worker.Handler.Fetch | workers/index.js:426-602 | the gate, then the branch, with the response, limiter map, store, write count and suspicion log that `FetchSpec` describes; a success makes one to ten lookups, a redirect exactly one, a refusal, a 429, the preflight and the home page none |

## Left out

- The HTML page, its inline browser script, CORS headers and `console.log`.
  They are presentation and diagnostics. The suspicion log is kept only as
  the `flagged` result.
- The WHATWG URL parser and the JavaScript regular-expression engine.
  - Parsing is an oracle.
  - The `/…/i` patterns are ASCII-lowercase substring tests. Lower-casing
    beyond ASCII is not modelled.
- String lengths count characters, not UTF-16 code units. So the 2048 limit
  for text outside the Basic Multilingual Plane is not modelled exactly.
- JSON parsing and serialisation of request bodies and stored records.
  - A body that fails to parse is the `Unreadable` case (400 "Invalid
    request").
  - A `url` member that is not a string is not modelled.
  - A stored value that fails `JSON.parse` in the redirect branch throws
    outside any `try` in the source; that path is not modelled.
- The network call of `checkSafeBrowsing`. Its outcome is an input
  (`LookupOutcome`).
- Exceptions from the key-value store, which the shorten branch turns into
  "Invalid request". Concurrency, and the races of check-then-put and of the
  click read-modify-write, are not modelled either: each request runs alone.
- Worker isolates: each isolate has its own `rateLimitCache`. The model has
  one limiter per `Handler`.
- The `List` endpoint: neither handler has one.
- `public/index.php`, the Laravel controller, routes and view are not part
  of this model. They are thin wrappers over file I/O and framework calls.
- `Response.redirect` serialises its URL argument, so the `Location`
  header holds the parser's normal form (`HTTPS://Example.com` becomes
  `https://example.com/`). `Redirect(location)` holds the stored string as
  it is, since the serialisation belongs to the parser oracle.
- RateLimit.BurstAllAdmitted, RateLimit.FullBurstLimits and
  RateLimit.EleventhRequestIsLimited replay one client's calls only. Calls
  from other clients interleaved with the burst also sweep the map; that
  they leave this client's list alone is stated per call by
  `RateLimit.StepFrame`, not proved for whole interleaved sequences.
- Worker.Handler.Fetch: uses the corrected dispatch `Routing.FixedRouteOf`.
  The dispatch as written is `Worker.FetchAsWritten` (see Findings).

## Findings

| source | as written | input that shows it | evidently intended | confidence | as-written member | corrected member |
|---|---|---|---|---|---|---|
| workers/index.js:577 | the redirect branch skips every path that starts with `/api`, so generated codes beginning with `api` are stored but can never be followed | draws 0, 15, 8, 0, 1, 2 give the code `apiabc`; the link is stored and `GET /apiabc` is answered 404 | exclude only the `/api/` namespace, so every generated code resolves | medium, not executed | Worker.ApiCodeUnreachable | Worker.ShortenedLinkRedirects |
| public/_worker.js:405 | the same guard in the Pages handler | the same draws and request | exclude only `/api/` | medium, not executed | Routing.CodeRouting | Routing.FixedCodeRouting |
