/**
 * The scheme validator and the pattern blocker shared by both edge handlers
 * (`isValidUrl`, `isMaliciousUrl`).  The WHATWG URL parser is not modelled:
 * it is an oracle from the raw string to either a parse failure or the
 * parsed `protocol` (with its trailing colon) and `hostname`.
 */
module UrlCheck {
  import opened Text

  datatype UrlParse = ParseError | Url(protocol: string, hostname: string)

  /** What `new URL(s)` yields for each input string. */
  type Parser = string -> UrlParse

  const AllowedSchemes: seq<string> := ["http:", "https:"]

  /** The regular expressions `/javascript:/i` … `/chrome:/i`, as lower-case needles. */
  const BlockedPatterns: seq<string> :=
    ["javascript:", "data:", "vbscript:", "file:", "about:", "chrome:"]

  /** `isValidUrl`: the string parses and its protocol is `http:` or `https:`. */
  predicate IsValidUrl(parse: Parser, s: string)
  {
    match parse(s)
    case ParseError => false
    case Url(protocol, _) => protocol in AllowedSchemes
  }

  /** `pattern.test(s)` for a case-insensitive pattern made of ASCII characters only. */
  predicate MatchesIgnoringCase(s: string, needle: string)
  {
    Contains(Lower(s), needle)
  }

  /** The early-return loop over `BLOCKED_PATTERNS` (any suffix of the list). */
  predicate MatchesAnyPattern(s: string, patterns: seq<string>)
    ensures MatchesAnyPattern(s, patterns) <==>
      exists i :: 0 <= i < |patterns| && MatchesIgnoringCase(s, patterns[i])
  {
    if |patterns| == 0 then false
    else if MatchesIgnoringCase(s, patterns[0]) then true
    else
      assert forall i :: 1 <= i < |patterns| ==> patterns[1..][i - 1] == patterns[i];
      MatchesAnyPattern(s, patterns[1..])
  }

  /**
   * `isMaliciousUrl`: a parse failure or a disallowed protocol is malicious;
   * an http(s) URL is malicious exactly when a blocked scheme name occurs,
   * in any letter case, anywhere in the raw string.
   */
  predicate IsMaliciousUrl(parse: Parser, s: string)
    ensures !IsValidUrl(parse, s) ==> IsMaliciousUrl(parse, s)
    ensures IsValidUrl(parse, s) ==>
      (IsMaliciousUrl(parse, s) <==>
        exists i :: 0 <= i < |BlockedPatterns| && MatchesIgnoringCase(s, BlockedPatterns[i]))
  {
    match parse(s)
    case ParseError => true
    case Url(protocol, _) =>
      if protocol !in AllowedSchemes then true
      else MatchesAnyPattern(s, BlockedPatterns)
  }

  /** Both checks pass: the condition under which a URL may be stored or followed. */
  predicate IsSafeTarget(parse: Parser, s: string)
  {
    IsValidUrl(parse, s) && !IsMaliciousUrl(parse, s)
  }

  /** Letter case never matters to the blocker: `JavaScript:` is caught like `javascript:`. */
  lemma {:induction false} MatchIgnoresCase(s: string, t: string, needle: string)
    requires |s| == |t|
    requires forall i :: 0 <= i < |s| ==> LowerChar(s[i]) == LowerChar(t[i])
    ensures MatchesIgnoringCase(s, needle) <==> MatchesIgnoringCase(t, needle)
  {
    assert Lower(s) == Lower(t);
  }

  /**
   * A URL the parser accepts as http(s) is still refused when a blocked scheme
   * name appears later in it, e.g. in the query string.
   */
  lemma EmbeddedSchemeIsBlocked(parse: Parser, s: string, k: nat)
    requires IsValidUrl(parse, s)
    requires k + 11 <= |s| && Lower(s)[k..k + 11] == "javascript:"
    ensures IsMaliciousUrl(parse, s)
  {
    ContainsAt(Lower(s), "javascript:", k);
    assert MatchesIgnoringCase(s, BlockedPatterns[0]);
  }

  lemma {:induction false} ContainsAt(s: string, p: string, k: nat)
    requires k + |p| <= |s| && s[k..k + |p|] == p
    ensures Contains(s, p)
    decreases k
  {
    if k > 0 {
      assert s[1..][k - 1..k - 1 + |p|] == s[k..k + |p|];
      ContainsAt(s[1..], p, k - 1);
    }
  }
}
