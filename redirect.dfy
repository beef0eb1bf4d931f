/**
 * The redirect branch of both handlers: the code syntax check, the lookup,
 * the read-modify-write of the click counter and the re-validation of the
 * stored target (the open-redirect guard).
 */
module Redirect {
  import opened Wrappers
  import opened Text
  import opened UrlCheck
  import opened Links
  import opened Routing

  /** `urlData.clicks || 0`: a missing counter counts as zero. */
  function ClicksSoFar(r: LinkRecord): int
  {
    match r.clicks
    case Some(n) => n
    case None => 0
  }

  /** The record as written back: one more click, every other field kept. */
  function Counted(r: LinkRecord): (c: LinkRecord)
    ensures c.clicks == Some(ClicksSoFar(r) + 1)
    ensures c.originalUrl == r.originalUrl && c.createdAt == r.createdAt
    ensures c.ip == r.ip && c.userAgent == r.userAgent
  {
    r.(clicks := Some(ClicksSoFar(r) + 1))
  }

  /**
   * Where a found code sends the client: the stored URL when it still
   * passes both checks, the site's origin otherwise.  The client is never
   * sent anywhere else.
   */
  function RedirectTarget(parse: Parser, stored: string, origin: string): (target: string)
    ensures target == origin || (target == stored && IsSafeTarget(parse, stored))
    ensures IsSafeTarget(parse, stored) ==> target == stored
  {
    if IsValidUrl(parse, stored) && !IsMaliciousUrl(parse, stored) then stored else origin
  }

  /** A resolution: the response, the store afterwards and the number of writes. */
  datatype Resolution = Resolution(response: Response, entries: map<string, LinkRecord>, writes: nat)

  /** The redirect branch for a code taken from the path. */
  function Resolve(entries: map<string, LinkRecord>, code: string, parse: Parser, origin: string): Resolution
  {
    if !IsAlnumWord(code) || code !in entries then Resolution(NotFound, entries, 0)
    else
      var record := entries[code];
      Resolution(Redirect(RedirectTarget(parse, record.originalUrl, origin)),
                 entries[code := Counted(record)], 1)
  }

  /**
   * What resolving does: a malformed or unknown code is a 404 that changes
   * nothing; a known code is always counted (one write, even when its
   * target is refused), the rest of the store is untouched, and the 302
   * goes to the stored URL or to the origin.
   */
  lemma ResolveOutcome(entries: map<string, LinkRecord>, code: string, parse: Parser, origin: string)
    ensures var r := Resolve(entries, code, parse, origin);
      && (r.response == NotFound <==> !IsAlnumWord(code) || code !in entries)
      && (r.response == NotFound ==> r.entries == entries && r.writes == 0)
      && (r.response != NotFound ==>
            && r.response.Redirect?
            && r.writes == 1
            && r.entries.Keys == entries.Keys
            && r.entries[code].clicks == Some(ClicksSoFar(entries[code]) + 1)
            && r.entries[code].originalUrl == entries[code].originalUrl
            && (forall k :: k in entries && k != code ==> r.entries[k] == entries[k])
            && (r.response.location == entries[code].originalUrl
                  <== IsSafeTarget(parse, entries[code].originalUrl))
            && (r.response.location == origin
                  <== !IsSafeTarget(parse, entries[code].originalUrl)))
  {
  }

  /** Two visits add two clicks, whatever the stored counter was. */
  lemma ResolveTwice(entries: map<string, LinkRecord>, code: string, parse: Parser, origin: string)
    requires IsAlnumWord(code) && code in entries
    ensures var once := Resolve(entries, code, parse, origin).entries;
      var twice := Resolve(once, code, parse, origin).entries;
      twice[code].clicks == Some(ClicksSoFar(entries[code]) + 2)
      && Resolve(once, code, parse, origin).response == Resolve(entries, code, parse, origin).response
  {
  }

  /**
   * The redirect branch against the store: a malformed code is refused
   * before any lookup; otherwise one lookup, and for a known code one write.
   */
  method ResolveCode(store: LinkStore, code: string, parse: Parser, origin: string)
    returns (response: Response)
    modifies store
    ensures var r := Resolve(old(store.entries), code, parse, origin);
      response == r.response && store.entries == r.entries
      && store.writes == old(store.writes) + r.writes
    ensures store.lookups == old(store.lookups) + (if IsAlnumWord(code) then 1 else 0)
  {
    if !IsAlnumWord(code) {
      return NotFound;
    }
    var data := store.Get(code);
    if data.None? {
      return NotFound;
    }
    var record := data.value;
    var clicks := ClicksSoFar(record) + 1;
    store.Put(code, record.(clicks := Some(clicks)));
    if IsValidUrl(parse, record.originalUrl) && !IsMaliciousUrl(parse, record.originalUrl) {
      return Redirect(record.originalUrl);
    }
    return Redirect(origin);
  }
}
