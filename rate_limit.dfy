/**
 * The sliding-window rate limiter of both edge handlers (`isRateLimited`).
 * Its process-wide map from client id to request timestamps becomes the
 * field of a `RateLimiter` object; the clock reading is a parameter.
 */
module RateLimit {
  import opened Wrappers
  import opened Text

  const WindowMs: int := 60 * 1000
  const MaxRequests: nat := 10

  /** `ip`'s list, or the empty list for a client never seen (`cache.get(ip) || []`). */
  function Entry(cache: map<string, seq<int>>, ip: string): seq<int>
  {
    if ip in cache then cache[ip] else []
  }

  /**
   * The number a JavaScript relational comparison turns an array of numbers
   * into: the empty array becomes 0, a one-element array its element, and a
   * longer array NaN (`None`), which compares false with everything.
   */
  function AsNumber(ts: seq<int>): Option<int>
  {
    if |ts| == 0 then Some(0) else if |ts| == 1 then Some(ts[0]) else None
  }

  /** The sweep's test `timestamp < windowStart`, applied to a whole list. */
  predicate SweptOut(ts: seq<int>, windowStart: int)
  {
    match AsNumber(ts)
    case Some(v) => v < windowStart
    case None => false
  }

  /** The map left by the sweep loop: every entry the coerced test deletes is gone. */
  function Sweep(cache: map<string, seq<int>>, windowStart: int): map<string, seq<int>>
  {
    map k | k in cache && !SweptOut(cache[k], windowStart) :: cache[k]
  }

  /**
   * Under the coercion only an empty list (read as 0) or a one-element list
   * holding an old timestamp is deleted; a list of two or more timestamps
   * survives every sweep, however old its timestamps are.
   */
  lemma SweepCoercion(ts: seq<int>, windowStart: int)
    ensures SweptOut(ts, windowStart) <==>
      (|ts| == 0 && 0 < windowStart) || (|ts| == 1 && ts[0] < windowStart)
    ensures |ts| >= 2 ==> !SweptOut(ts, windowStart)
  {
  }

  /**
   * The sweep only deletes, and never deletes a client that still has a
   * timestamp inside the window or has two or more timestamps.
   */
  lemma SweepKeepsActive(cache: map<string, seq<int>>, windowStart: int, k: string)
    requires k in cache
    ensures k in Sweep(cache, windowStart) ==> Sweep(cache, windowStart)[k] == cache[k]
    ensures |cache[k]| >= 2 || CountRecent(cache[k], windowStart) > 0 ==> k in Sweep(cache, windowStart)
  {
    var ts := cache[k];
    if |ts| == 1 && CountRecent(ts, windowStart) > 0 {
      assert CountRecent(ts, windowStart) == CountRecent([], windowStart) + (if ts[0] > windowStart then 1 else 0);
    }
  }

  /** `ts.filter(t => t > windowStart).length`. */
  function CountRecent(ts: seq<int>, windowStart: int): (n: nat)
    ensures n <= |ts|
  {
    if |ts| == 0 then 0
    else CountRecent(ts[..|ts| - 1], windowStart) + (if ts[|ts| - 1] > windowStart then 1 else 0)
  }

  datatype Decision = Decision(limited: bool, cache: map<string, seq<int>>)

  /**
   * One call of `isRateLimited(ip)` at time `now`: sweep, count `ip`'s recent
   * timestamps, refuse at the maximum, and otherwise record `now`.
   */
  function Step(cache: map<string, seq<int>>, ip: string, now: int): Decision
  {
    var windowStart := now - WindowMs;
    var swept := Sweep(cache, windowStart);
    if CountRecent(Entry(swept, ip), windowStart) >= MaxRequests then Decision(true, swept)
    else Decision(false, swept[ip := Entry(swept, ip) + [now]])
  }

  class RateLimiter {
    var cache: map<string, seq<int>>

    constructor ()
      ensures cache == map[]
    {
      cache := map[];
    }

    /** `isRateLimited(ip)` with `Date.now()` supplied as `now`. */
    method IsRateLimited(ip: string, now: int) returns (limited: bool)
      modifies this
      ensures limited == Step(old(cache), ip, now).limited
      ensures cache == Step(old(cache), ip, now).cache
    {
      var windowStart := now - WindowMs;
      var pending := cache.Keys;
      while pending != {}
        invariant pending <= old(cache).Keys
        invariant forall k :: k in cache <==>
          k in old(cache) && (k in pending || !SweptOut(old(cache)[k], windowStart))
        invariant forall k :: k in cache ==> cache[k] == old(cache)[k]
        decreases pending
      {
        var key :| key in pending;
        if SweptOut(cache[key], windowStart) {
          cache := cache - {key};
        }
        pending := pending - {key};
      }
      assert cache == Sweep(old(cache), windowStart);
      var requestCount := CountRecent(Entry(cache, ip), windowStart);
      if requestCount >= MaxRequests {
        return true;
      }
      var timestamps := Entry(cache, ip);
      cache := cache[ip := timestamps + [now]];
      return false;
    }
  }

  lemma {:induction false} CountRecentAppend(a: seq<int>, b: seq<int>, w: int)
    ensures CountRecent(a + b, w) == CountRecent(a, w) + CountRecent(b, w)
    decreases |b|
  {
    if |b| > 0 {
      assert (a + b)[..|a + b| - 1] == a + b[..|b| - 1];
      CountRecentAppend(a, b[..|b| - 1], w);
    } else {
      assert a + b == a;
    }
  }

  /** Moving the window start forward never raises the count. */
  lemma {:induction false} CountRecentAntitone(ts: seq<int>, w: int, w': int)
    requires w <= w'
    ensures CountRecent(ts, w') <= CountRecent(ts, w)
    decreases |ts|
  {
    if |ts| > 0 {
      CountRecentAntitone(ts[..|ts| - 1], w, w');
    }
  }

  lemma {:induction false} CountRecentAll(ts: seq<int>, w: int)
    requires forall i :: 0 <= i < |ts| ==> ts[i] > w
    ensures CountRecent(ts, w) == |ts|
    decreases |ts|
  {
    if |ts| > 0 {
      CountRecentAll(ts[..|ts| - 1], w);
    }
  }

  /**
   * The sweep only ever deletes a list that holds no timestamp after its
   * window start, so counts taken at that window start or later are unchanged.
   */
  lemma SweepKeepsRecentCount(cache: map<string, seq<int>>, windowStart: int, ip: string, w: int)
    requires windowStart <= w
    ensures CountRecent(Entry(Sweep(cache, windowStart), ip), w) == CountRecent(Entry(cache, ip), w)
  {
    if ip in cache && SweptOut(cache[ip], windowStart) {
      var ts := cache[ip];
      if |ts| == 1 {
        assert ts[..0] == [];
      }
    }
  }

  /**
   * What one call decides and records for `ip`: it refuses exactly when `ip`
   * already has `MaxRequests` timestamps after `now - WindowMs`; a refusal
   * records nothing, an admission appends `now` to `ip`'s (swept) list.
   */
  lemma StepDecision(cache: map<string, seq<int>>, ip: string, now: int)
    ensures var d := Step(cache, ip, now);
      && (d.limited <==> CountRecent(Entry(cache, ip), now - WindowMs) >= MaxRequests)
      && (d.limited ==> d.cache == Sweep(cache, now - WindowMs))
      && (!d.limited ==> Entry(d.cache, ip) == Entry(Sweep(cache, now - WindowMs), ip) + [now])
      && (!d.limited ==> CountRecent(Entry(d.cache, ip), now - WindowMs)
                           == CountRecent(Entry(cache, ip), now - WindowMs) + 1)
  {
    var w := now - WindowMs;
    SweepKeepsRecentCount(cache, w, ip, w);
    var e := Entry(Sweep(cache, w), ip);
    CountRecentAppend(e, [now], w);
  }

  /**
   * Every other client's list is kept as it was, unless the sweep deleted it,
   * and the sweep deletes only lists its coerced comparison finds old.
   */
  lemma StepFrame(cache: map<string, seq<int>>, ip: string, now: int)
    ensures var d := Step(cache, ip, now);
      && (forall k :: k != ip && k in d.cache ==> k in cache && d.cache[k] == cache[k])
      && (forall k :: k != ip && k in cache ==> (k in d.cache <==> !SweptOut(cache[k], now - WindowMs)))
  {
  }

  /** A client whose timestamps have all left the window is admitted again. */
  lemma ExpiredHistoryIsAdmitted(cache: map<string, seq<int>>, ip: string, now: int)
    requires forall i :: 0 <= i < |Entry(cache, ip)| ==> Entry(cache, ip)[i] <= now - WindowMs
    ensures !Step(cache, ip, now).limited
  {
    StepDecision(cache, ip, now);
    CountRecentNone(Entry(cache, ip), now - WindowMs);
  }

  lemma {:induction false} CountRecentNone(ts: seq<int>, w: int)
    requires forall i :: 0 <= i < |ts| ==> ts[i] <= w
    ensures CountRecent(ts, w) == 0
    decreases |ts|
  {
    if |ts| > 0 {
      CountRecentNone(ts[..|ts| - 1], w);
    }
  }

  /** No client ever holds more than `MaxRequests` timestamps inside the window. */
  predicate WindowBounded(cache: map<string, seq<int>>, windowStart: int)
  {
    forall k :: k in cache ==> CountRecent(cache[k], windowStart) <= MaxRequests
  }

  /**
   * With a clock that does not run backwards, every call keeps every
   * client's count inside the sliding window at or below `MaxRequests`.
   */
  lemma StepKeepsWindowBounded(cache: map<string, seq<int>>, ip: string, prevNow: int, now: int)
    requires prevNow <= now
    requires WindowBounded(cache, prevNow - WindowMs)
    ensures WindowBounded(Step(cache, ip, now).cache, now - WindowMs)
  {
    var d := Step(cache, ip, now);
    StepDecision(cache, ip, now);
    StepFrame(cache, ip, now);
    forall k | k in d.cache
      ensures CountRecent(d.cache[k], now - WindowMs) <= MaxRequests
    {
      if k == ip && !d.limited {
        assert d.cache[k] == Entry(d.cache, ip);
      } else {
        CountRecentAntitone(cache[k], prevNow - WindowMs, now - WindowMs);
      }
    }
  }

  /** The state after the calls of `ip` at `times`, in order. */
  function Replay(cache: map<string, seq<int>>, ip: string, times: seq<int>): map<string, seq<int>>
    decreases |times|
  {
    if |times| == 0 then cache
    else Step(Replay(cache, ip, times[..|times| - 1]), ip, times[|times| - 1]).cache
  }

  /**
   * Calls from `ip` at `times`, at most `MaxRequests` of them, all inside the
   * window `[t0, t0 + WindowMs)`, from a client with no timestamp after
   * `t0 - WindowMs` yet.
   */
  predicate FreshBurst(cache: map<string, seq<int>>, ip: string, times: seq<int>, t0: int)
  {
    && |times| <= MaxRequests
    && (forall i :: 0 <= i < |times| ==> t0 <= times[i] < t0 + WindowMs)
    && CountRecent(Entry(cache, ip), t0 - WindowMs) == 0
  }

  /** No timestamp of `e` lies strictly between `t0 - WindowMs` and `t0`. */
  predicate Quiet(e: seq<int>, t0: int)
  {
    forall i :: 0 <= i < |e| ==> e[i] <= t0 - WindowMs || e[i] >= t0
  }

  /** `ip` is `k` calls into a burst that started at `t0`. */
  predicate InBurst(cache: map<string, seq<int>>, ip: string, k: nat, t0: int)
  {
    Quiet(Entry(cache, ip), t0) && CountRecent(Entry(cache, ip), t0 - WindowMs) == k
  }

  /** Window starts that no timestamp separates give the same count. */
  lemma {:induction false} CountRecentGap(ts: seq<int>, w: int, w': int)
    requires w <= w'
    requires forall i :: 0 <= i < |ts| ==> ts[i] <= w || ts[i] > w'
    ensures CountRecent(ts, w) == CountRecent(ts, w')
    decreases |ts|
  {
    if |ts| > 0 {
      CountRecentGap(ts[..|ts| - 1], w, w');
    }
  }

  /** A zero count means no timestamp is after the window start. */
  lemma {:induction false} CountRecentZero(ts: seq<int>, w: int)
    requires CountRecent(ts, w) == 0
    ensures forall i :: 0 <= i < |ts| ==> ts[i] <= w
    decreases |ts|
  {
    if |ts| > 0 {
      CountRecentZero(ts[..|ts| - 1], w);
      assert forall i :: 0 <= i < |ts| - 1 ==> ts[..|ts| - 1][i] == ts[i];
    }
  }

  lemma SweepEntry(cache: map<string, seq<int>>, w: int, ip: string)
    ensures Entry(Sweep(cache, w), ip) == if SweptOut(Entry(cache, ip), w) then [] else Entry(cache, ip)
  {
  }

  /**
   * A call inside the window of a burst that has not reached the maximum
   * is admitted and moves the burst one call on.
   */
  lemma BurstCall(prev: map<string, seq<int>>, ip: string, k: nat, t0: int, now: int)
    requires InBurst(prev, ip, k, t0) && k < MaxRequests
    requires t0 <= now < t0 + WindowMs
    ensures !Step(prev, ip, now).limited
    ensures InBurst(Step(prev, ip, now).cache, ip, k + 1, t0)
  {
    var e := Entry(prev, ip);
    var ws := now - WindowMs;
    CountRecentGap(e, t0 - WindowMs, ws);
    StepDecision(prev, ip, now);
    SweepEntry(prev, ws, ip);
    var s := Entry(Sweep(prev, ws), ip);
    var e' := Entry(Step(prev, ip, now).cache, ip);
    assert e' == s + [now];
    if SweptOut(e, ws) {
      if |e| == 1 {
        assert e[..0] == [];
      }
      assert s == [];
      assert e' == [now];
      assert e'[..0] == [];
    } else {
      CountRecentAppend(e, [now], t0 - WindowMs);
    }
  }

  /** A burst at the maximum refuses every further call inside its window. */
  lemma BurstFull(c: map<string, seq<int>>, ip: string, t0: int, now: int)
    requires InBurst(c, ip, MaxRequests, t0)
    requires t0 <= now < t0 + WindowMs
    ensures Step(c, ip, now).limited
  {
    CountRecentGap(Entry(c, ip), t0 - WindowMs, now - WindowMs);
    StepDecision(c, ip, now);
  }

  /** One more call is one more step. */
  lemma ReplaySnoc(cache: map<string, seq<int>>, ip: string, times: seq<int>, t: int)
    ensures Replay(cache, ip, times + [t]) == Step(Replay(cache, ip, times), ip, t).cache
  {
    assert (times + [t])[..|times|] == times;
  }

  /** Replaying two runs of calls one after the other is replaying their concatenation. */
  lemma {:induction false} ReplayConcat(cache: map<string, seq<int>>, ip: string, a: seq<int>, b: seq<int>)
    ensures Replay(cache, ip, a + b) == Replay(Replay(cache, ip, a), ip, b)
    decreases |b|
  {
    if |b| == 0 {
      assert a + b == a;
    } else {
      var init, last := b[..|b| - 1], b[|b| - 1];
      assert b == init + [last];
      assert a + b == (a + init) + [last];
      ReplayConcat(cache, ip, a, init);
      ReplaySnoc(cache, ip, a + init, last);
      ReplaySnoc(Replay(cache, ip, a), ip, init, last);
    }
  }

  /** After the calls of a fresh burst the client is that many calls into it. */
  lemma {:induction false} BurstReplay(cache: map<string, seq<int>>, ip: string, times: seq<int>, t0: int)
    requires FreshBurst(cache, ip, times, t0)
    ensures InBurst(Replay(cache, ip, times), ip, |times|, t0)
    decreases |times|
  {
    if |times| == 0 {
      CountRecentZero(Entry(cache, ip), t0 - WindowMs);
    } else {
      var init := times[..|times| - 1];
      assert FreshBurst(cache, ip, init, t0);
      BurstReplay(cache, ip, init, t0);
      BurstCall(Replay(cache, ip, init), ip, |init|, t0, times[|times| - 1]);
    }
  }

  /** Every call of a fresh burst is admitted. */
  lemma BurstAllAdmitted(cache: map<string, seq<int>>, ip: string, times: seq<int>, t0: int)
    requires FreshBurst(cache, ip, times, t0)
    ensures forall j :: 0 <= j < |times| ==> !Step(Replay(cache, ip, times[..j]), ip, times[j]).limited
  {
    forall j | 0 <= j < |times|
      ensures !Step(Replay(cache, ip, times[..j]), ip, times[j]).limited
    {
      assert FreshBurst(cache, ip, times[..j], t0);
      BurstReplay(cache, ip, times[..j], t0);
      BurstCall(Replay(cache, ip, times[..j]), ip, j, t0, times[j]);
    }
  }

  /** A full fresh burst leaves the client at the maximum for the rest of the window. */
  lemma FullBurstLimits(cache: map<string, seq<int>>, ip: string, times: seq<int>, t0: int, now: int)
    requires FreshBurst(cache, ip, times, t0) && |times| == MaxRequests
    requires t0 <= now < t0 + WindowMs
    ensures Step(Replay(cache, ip, times), ip, now).limited
  {
    BurstReplay(cache, ip, times, t0);
    BurstFull(Replay(cache, ip, times), ip, t0, now);
  }

  /**
   * Eleven calls from one client inside one window, the client having no
   * timestamp in that window before: the first ten are admitted and the
   * eleventh is refused.
   */
  lemma EleventhRequestIsLimited(cache: map<string, seq<int>>, ip: string, times: seq<int>, t0: int, now: int)
    requires FreshBurst(cache, ip, times, t0) && |times| == MaxRequests
    requires t0 <= now < t0 + WindowMs
    ensures forall j :: 0 <= j < |times| ==> !Step(Replay(cache, ip, times[..j]), ip, times[j]).limited
    ensures Step(Replay(cache, ip, times), ip, now).limited
  {
    BurstAllAdmitted(cache, ip, times, t0);
    FullBurstLimits(cache, ip, times, t0, now);
  }
}
