/**
 * The decision part of `checkSafeBrowsing` in the standalone worker.  The
 * HTTP call to the reputation service is not modelled: its outcome is an
 * input, and the decision is fail-open.
 */
module SafeBrowsing {
  import opened Wrappers
  import opened Text

  /** The value shipped in the source in place of a real key. */
  const PlaceholderKey: string := "YOUR_SAFE_BROWSING_API_KEY"

  datatype ThreatMatch = ThreatMatch(threatType: string, platformType: string)

  /** What the lookup produced: it threw, answered with a non-2xx status, or answered. */
  datatype LookupOutcome =
    | Threw
    | NotOk(status: int)
    | Answered(matches: Option<seq<ThreatMatch>>)

  datatype Verdict = Safe | Unsafe(threatType: string, platformType: string)

  /** `env.SAFE_BROWSING_API_KEY || SAFE_BROWSING_API_KEY`. */
  function EffectiveKey(envKey: Option<string>): (key: string)
    ensures envKey.Some? && envKey.value != "" ==> key == envKey.value
    ensures envKey.None? || envKey.value == "" ==> key == PlaceholderKey
  {
    match envKey
    case Some(k) => if k != "" then k else PlaceholderKey
    case None => PlaceholderKey
  }

  /** A key is usable when it is present, non-empty and not the placeholder. */
  predicate Configured(apiKey: Option<string>)
  {
    apiKey.Some? && apiKey.value != "" && apiKey.value != PlaceholderKey
  }

  /**
   * `checkSafeBrowsing`: unsafe only when a usable key was given and the
   * service answered with a non-empty `matches` list, in which case the first
   * match names the threat; every other outcome (no key, the placeholder key,
   * a non-OK status, an exception, an empty or missing list) is safe.
   */
  function CheckSafeBrowsing(apiKey: Option<string>, lookup: LookupOutcome): (v: Verdict)
    ensures v.Unsafe? <==>
      Configured(apiKey) && lookup.Answered? && lookup.matches.Some? && |lookup.matches.value| > 0
    ensures v.Unsafe? ==>
      v.threatType == lookup.matches.value[0].threatType &&
      v.platformType == lookup.matches.value[0].platformType
  {
    if !Configured(apiKey) then Safe
    else match lookup
      case Threw => Safe
      case NotOk(_) => Safe
      case Answered(matches) =>
        if matches.Some? && |matches.value| > 0
        then Unsafe(matches.value[0].threatType, matches.value[0].platformType)
        else Safe
  }

  /** With no key in the environment the shipped placeholder is used, and nothing is ever flagged. */
  lemma UnsetKeyNeverFlags(lookup: LookupOutcome)
    ensures CheckSafeBrowsing(Some(EffectiveKey(None)), lookup) == Safe
  {
  }
}
