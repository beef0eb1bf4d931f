/**
 * The hostname heuristics of the standalone worker (`isSuspiciousUrl`).  The
 * handler only logs a positive answer; it never rejects on it.
 */
module Heuristics {
  import opened Text
  import opened UrlCheck

  const BlockedTlds: seq<string> :=
    [".tk", ".ml", ".ga", ".cf", ".gq", ".xyz", ".top", ".work", ".click", ".link"]

  const PhishingKeywords: seq<string> :=
    ["login", "signin", "verify", "secure", "account", "update", "confirm",
     "banking", "password", "credential", "auth", "paypal", "apple",
     "microsoft", "google", "amazon", "facebook", "instagram", "twitter",
     "netflix", "spotify", "coinbase", "binance", "metamask", "wallet", "crypto"]

  /** The local `freeTLDs` list consulted only when a keyword is present. */
  const FreeTlds: seq<string> :=
    [".tk", ".ml", ".ga", ".cf", ".gq", ".xyz", ".top", ".work", ".click",
     ".link", ".pw", ".cc", ".ws"]

  /** The three entries of `FreeTlds` that `BlockedTlds` lacks. */
  const ExtraFreeTlds: seq<string> := [".pw", ".cc", ".ws"]

  /** One to three ASCII digits (`\d{1,3}`). */
  predicate IsOctetShape(p: string)
  {
    1 <= |p| <= 3 && forall i :: 0 <= i < |p| ==> IsDigit(p[i])
  }

  /**
   * `/^(\d{1,3}\.){3}\d{1,3}$/`: four dot-separated runs of one to three
   * digits; the runs are not range-checked, so `999.0.0.1` qualifies.
   */
  predicate IsDottedQuad(h: string)
  {
    var parts := Split(h, '.');
    |parts| == 4 && forall i :: 0 <= i < 4 ==> IsOctetShape(parts[i])
  }

  /** `hostname.split(".").length`. */
  function LabelCount(h: string): (n: nat)
    ensures n == Occurrences(h, '.') + 1
  {
    |Split(h, '.')|
  }

  /** The four tests of `isSuspiciousUrl`, in order, on the lower-cased hostname. */
  predicate SuspiciousHost(h: string)
  {
    || EndsWithAny(h, BlockedTlds)
    || IsDottedQuad(h)
    || LabelCount(h) > 4
    || (ContainsAny(h, PhishingKeywords) && EndsWithAny(h, FreeTlds))
  }

  /** `isSuspiciousUrl`: an unparseable string is suspicious; otherwise the hostname decides. */
  predicate IsSuspiciousUrl(parse: Parser, s: string)
  {
    match parse(s)
    case ParseError => true
    case Url(_, hostname) => SuspiciousHost(Lower(hostname))
  }

  /**
   * The verdict looks only at the hostname, up to ASCII case: a string the
   * parser refuses is suspicious, and two parsed URLs whose hostnames agree
   * up to case get the same verdict, whatever their protocols.
   */
  lemma SuspicionByHostname(parse: Parser, s: string, parse': Parser, s': string)
    ensures parse(s).ParseError? ==> IsSuspiciousUrl(parse, s)
    ensures parse(s).Url? && parse'(s').Url? && Lower(parse(s).hostname) == Lower(parse'(s').hostname)
      ==> IsSuspiciousUrl(parse, s) == IsSuspiciousUrl(parse', s')
  {
  }

  /**
   * The keyword rule only adds `.pw`, `.cc` and `.ws` to the blocked-suffix
   * rule: a host is suspicious exactly when it has a blocked suffix, is
   * dotted-quad shaped, has more than four labels (more than three dots), or
   * contains a keyword and ends in one of those three.
   */
  lemma SuspiciousHostReference(h: string)
    ensures SuspiciousHost(h) <==>
      || EndsWithAny(h, BlockedTlds)
      || IsDottedQuad(h)
      || Occurrences(h, '.') > 3
      || (ContainsAny(h, PhishingKeywords) && EndsWithAny(h, ExtraFreeTlds))
  {
    assert FreeTlds == BlockedTlds + ExtraFreeTlds;
    EndsWithAnyConcat(h, BlockedTlds, ExtraFreeTlds);
  }

  /** A dotted-quad host has exactly four labels, so the label rule never overlaps it. */
  lemma DottedQuadHasFourLabels(h: string)
    requires IsDottedQuad(h)
    ensures LabelCount(h) == 4 && Occurrences(h, '.') == 3
  {
  }

  /** A brand keyword on an ordinary domain is not enough to be flagged. */
  lemma KeywordAloneIsNotSuspicious(h: string)
    requires !EndsWithAny(h, FreeTlds)
    requires !IsDottedQuad(h) && Occurrences(h, '.') <= 3
    ensures !SuspiciousHost(h)
  {
    assert FreeTlds == BlockedTlds + ExtraFreeTlds;
    EndsWithAnyConcat(h, BlockedTlds, ExtraFreeTlds);
  }

  /** `secure-login.tk` is flagged (by its suffix alone). */
  lemma BlockedSuffixExample()
    ensures SuspiciousHost("secure-login.tk")
  {
    var h := "secure-login.tk";
    assert h[|h| - 3..] == ".tk";
    assert EndsWith(h, BlockedTlds[0]);
  }

  /**
   * A keyword on a free suffix is flagged even where the blocked-suffix list
   * would not flag it, e.g. `paypal-verify.pw`.
   */
  lemma KeywordAndFreeSuffixIsSuspicious(h: string, k: nat, t: nat)
    requires k < |PhishingKeywords| && Contains(h, PhishingKeywords[k])
    requires t < |ExtraFreeTlds| && EndsWith(h, ExtraFreeTlds[t])
    ensures SuspiciousHost(h)
  {
    SuspiciousHostReference(h);
  }

  lemma KeywordAndFreeSuffixExample(h: string)
    requires h == "paypal-verify.pw"
    ensures SuspiciousHost(h)
  {
    assert StartsWith(h, "paypal") by { assert h[..6] == "paypal"; }
    assert EndsWith(h, ".pw") by { assert h[|h| - 3..] == ".pw"; }
    KeywordAndFreeSuffixIsSuspicious(h, 11, 0);
  }
}
