/**
 * The shorten branch (`POST /api/shorten`) of both handlers: the checks in
 * their fixed order, the allocation of a code and the single store write.
 * The two handlers differ only where `Variant` says so.
 */
module Shorten {
  import opened Wrappers
  import opened Text
  import opened UrlCheck
  import opened Heuristics
  import opened SafeBrowsing
  import opened Links
  import opened ShortCode
  import opened Routing

  /** `Pages` is the Pages handler, `Workers` the standalone worker with its extra stages. */
  datatype Variant = Pages | Workers

  const MaxUrlLength: nat := 2048

  /**
   * What the environment supplies: the URL parser, the reputation service,
   * the configured key, the random draws and the creation timestamp.
   */
  datatype Oracles = Oracles(
    parse: Parser,
    reputation: string -> LookupOutcome,
    envKey: Option<string>,
    draws: seq<int>,
    createdAt: string)

  predicate WellFormed(o: Oracles)
  {
    |o.draws| >= DrawsNeeded && ValidDraws(o.draws)
  }

  /** The submitted URL, when the body is JSON with a non-empty string `url`. */
  function Submitted(body: Body): Option<string>
  {
    if body.Json? && body.url.Some? && body.url.value != "" then body.url else None
  }

  /** What the reputation stage decides for `url` (standalone worker only). */
  function Reputation(o: Oracles, url: string): Verdict
  {
    CheckSafeBrowsing(Some(EffectiveKey(o.envKey)), o.reputation(url))
  }

  datatype Checked = Accepted(url: string) | Refused(error: ShortenError)

  /**
   * The checks, first failure wins: unreadable body, missing url, length,
   * format, blocked pattern, and for the standalone worker the reputation
   * verdict.  Each error arises exactly when every earlier check passed
   * and its own failed; a disallowed protocol is therefore reported as a
   * format error, and "scheme not allowed" only ever means a blocked name
   * inside an http(s) URL.
   */
  function Validate(variant: Variant, body: Body, o: Oracles): (r: Checked)
    ensures r == Refused(InvalidRequest) <==> body.Unreadable?
    ensures r == Refused(UrlRequired) <==> body.Json? && Submitted(body).None?
    ensures r == Refused(UrlTooLong) <==>
      Submitted(body).Some? && |Submitted(body).value| > MaxUrlLength
    ensures r == Refused(InvalidFormat) <==>
      Submitted(body).Some? && |Submitted(body).value| <= MaxUrlLength
      && !IsValidUrl(o.parse, Submitted(body).value)
    ensures r == Refused(SchemeNotAllowed) <==>
      Submitted(body).Some? && |Submitted(body).value| <= MaxUrlLength
      && IsValidUrl(o.parse, Submitted(body).value)
      && exists i :: 0 <= i < |BlockedPatterns| && MatchesIgnoringCase(Submitted(body).value, BlockedPatterns[i])
    ensures r.Refused? && r.error.FlaggedHarmful? <==>
      variant == Workers && Submitted(body).Some? && |Submitted(body).value| <= MaxUrlLength
      && IsSafeTarget(o.parse, Submitted(body).value)
      && Reputation(o, Submitted(body).value).Unsafe?
    ensures r.Refused? && r.error.FlaggedHarmful? ==>
      Submitted(body).Some? && r.error.threatType == Reputation(o, Submitted(body).value).threatType
    ensures r.Accepted? ==>
      Submitted(body) == Some(r.url) && |r.url| <= MaxUrlLength && IsSafeTarget(o.parse, r.url)
      && (variant == Workers ==> Reputation(o, r.url) == Safe)
  {
    match body
    case Unreadable => Refused(InvalidRequest)
    case Json(url) =>
      if url.None? || url.value == "" then Refused(UrlRequired)
      else if |url.value| > MaxUrlLength then Refused(UrlTooLong)
      else if !IsValidUrl(o.parse, url.value) then Refused(InvalidFormat)
      else if IsMaliciousUrl(o.parse, url.value) then Refused(SchemeNotAllowed)
      else if variant == Workers && Reputation(o, url.value).Unsafe? then
        Refused(FlaggedHarmful(Reputation(o, url.value).threatType))
      else Accepted(url.value)
  }

  /** Every URL that passes every check is accepted as submitted. */
  lemma ValidateComplete(variant: Variant, u: string, o: Oracles)
    requires u != "" && |u| <= MaxUrlLength && IsSafeTarget(o.parse, u)
    requires variant == Workers ==> Reputation(o, u) == Safe
    ensures Validate(variant, Json(Some(u)), o) == Accepted(u)
  {
  }

  /**
   * A URL that parses with a protocol other than `http:`/`https:` (such as
   * `javascript:alert(1)`) is refused as a format error: the validity check
   * runs before the blocked-pattern check.
   */
  lemma DisallowedProtocolIsFormatError(variant: Variant, u: string, o: Oracles)
    requires u != "" && |u| <= MaxUrlLength
    requires o.parse(u).Url? && o.parse(u).protocol !in AllowedSchemes
    ensures Validate(variant, Json(Some(u)), o) == Refused(InvalidFormat)
  {
  }

  /** The Pages handler never consults the reputation service or its key. */
  lemma PagesIgnoresReputation(body: Body, o: Oracles, o': Oracles)
    requires o.parse == o'.parse
    ensures Validate(Pages, body, o) == Validate(Pages, body, o')
  {
  }

  /**
   * Whether the standalone worker logs the URL as suspicious: the
   * heuristics run on URLs that passed the blocked-pattern check, before
   * the reputation stage.
   */
  predicate Flagged(variant: Variant, body: Body, o: Oracles)
  {
    variant == Workers && Submitted(body).Some?
    && |Submitted(body).value| <= MaxUrlLength
    && IsSafeTarget(o.parse, Submitted(body).value)
    && IsSuspiciousUrl(o.parse, Submitted(body).value)
  }

  /** A suspicious URL is only logged: with a safe verdict it is still accepted. */
  lemma SuspicionDoesNotBlock(u: string, o: Oracles)
    requires u != "" && |u| <= MaxUrlLength && IsSafeTarget(o.parse, u)
    requires Reputation(o, u) == Safe
    requires IsSuspiciousUrl(o.parse, u)
    ensures Flagged(Workers, Json(Some(u)), o)
    ensures Validate(Workers, Json(Some(u)), o) == Accepted(u)
  {
  }

  /**
   * The stored record: the URL, its creation time and zero clicks; the
   * standalone worker adds the client address and the `User-Agent`
   * header (or `"unknown"`).
   */
  function NewRecord(variant: Variant, url: string, createdAt: string, ip: string, userAgent: Option<string>): (r: LinkRecord)
    ensures r.originalUrl == url && r.createdAt == createdAt && r.clicks == Some(0)
    ensures variant == Pages ==> r.ip.None? && r.userAgent.None?
    ensures variant == Workers ==> r.ip == Some(ip) && r.userAgent.Some?
    ensures variant == Workers && Given(userAgent) ==> r.userAgent == userAgent
    ensures variant == Workers && !Given(userAgent) ==> r.userAgent == Some("unknown")
  {
    match variant
    case Pages => LinkRecord(url, createdAt, Some(0), None, None)
    case Workers =>
      LinkRecord(url, createdAt, Some(0), Some(ip),
                 Some(if Given(userAgent) then userAgent.value else "unknown"))
  }

  /** A creation: the response, the store afterwards, the writes made and whether a warning was logged. */
  datatype Creation = Creation(response: Response, entries: map<string, LinkRecord>, writes: nat, flagged: bool)

  /** The shorten branch against a store holding `entries`. */
  function ShortenSpec(variant: Variant, entries: map<string, LinkRecord>, body: Body,
                       origin: string, ip: string, userAgent: Option<string>, o: Oracles): Creation
    requires WellFormed(o)
  {
    var flagged := Flagged(variant, body, o);
    match Validate(variant, body, o)
    case Refused(e) => Creation(Rejected(e), entries, 0, flagged)
    case Accepted(u) =>
      var code := Allocation(entries.Keys, o.draws).0;
      Creation(Shortened(origin + "/" + code, code),
               entries[code := NewRecord(variant, u, o.createdAt, ip, userAgent)], 1, flagged)
  }

  /**
   * What shortening does: a refusal is a 400 that writes nothing; a
   * success writes exactly one record, at an alphanumeric code of six
   * characters that was free or of eight unchecked characters, holding the
   * submitted URL with zero clicks, and answers with `origin/code`.
   */
  lemma ShortenOutcome(variant: Variant, entries: map<string, LinkRecord>, body: Body,
                       origin: string, ip: string, userAgent: Option<string>, o: Oracles)
    requires WellFormed(o)
    ensures var c := ShortenSpec(variant, entries, body, origin, ip, userAgent, o);
      && (c.response.Rejected? || c.response.Shortened?)
      && (c.response.Rejected? ==> c.entries == entries && c.writes == 0 && Status(c.response) == 400)
      && (c.response.Shortened? ==>
            var code := c.response.code;
            && Submitted(body).Some?
            && c.writes == 1
            && c.response.shortUrl == origin + "/" + code
            && IsAlnumWord(code)
            && (|code| == DefaultLength || |code| == FallbackLength)
            && (|code| == DefaultLength ==> code !in entries)
            && c.entries == entries[code := NewRecord(variant, Submitted(body).value, o.createdAt, ip, userAgent)]
            && c.entries[code].originalUrl == Submitted(body).value
            && c.entries[code].clicks == Some(0)
            && IsSafeTarget(o.parse, c.entries[code].originalUrl))
  {
    AllocationOutcome(entries.Keys, o.draws);
  }

  /**
   * The shorten branch against the store: the checks in order (the
   * suspicion heuristics only set `flagged`), then the allocation loop,
   * then one `Put`.
   */
  method ShortenUrl(variant: Variant, store: LinkStore, body: Body, origin: string,
                    ip: string, userAgent: Option<string>, o: Oracles)
    returns (response: Response, flagged: bool)
    requires WellFormed(o)
    modifies store
    ensures var c := ShortenSpec(variant, old(store.entries), body, origin, ip, userAgent, o);
      response == c.response && store.entries == c.entries && flagged == c.flagged
      && store.writes == old(store.writes) + c.writes
    ensures response.Rejected? ==> store.lookups == old(store.lookups)
    ensures response.Shortened? ==> old(store.lookups) < store.lookups <= old(store.lookups) + MaxAttempts
  {
    flagged := false;
    if body.Unreadable? {
      return Rejected(InvalidRequest), flagged;
    }
    var url := body.url;
    if url.None? || url.value == "" {
      return Rejected(UrlRequired), flagged;
    }
    var originalUrl := url.value;
    if |originalUrl| > MaxUrlLength {
      return Rejected(UrlTooLong), flagged;
    }
    if !IsValidUrl(o.parse, originalUrl) {
      return Rejected(InvalidFormat), flagged;
    }
    if IsMaliciousUrl(o.parse, originalUrl) {
      return Rejected(SchemeNotAllowed), flagged;
    }
    if variant == Workers {
      flagged := IsSuspiciousUrl(o.parse, originalUrl);
      var verdict := CheckSafeBrowsing(Some(EffectiveKey(o.envKey)), o.reputation(originalUrl));
      if verdict.Unsafe? {
        return Rejected(FlaggedHarmful(verdict.threatType)), flagged;
      }
    }
    var code, attempts := AllocateCode(store, o.draws);
    AllocationOutcome(old(store.entries).Keys, o.draws);
    store.Put(code, NewRecord(variant, originalUrl, o.createdAt, ip, userAgent));
    response := Shortened(origin + "/" + code, code);
  }
}
