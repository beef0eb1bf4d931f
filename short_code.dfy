/**
 * Short-code generation (`generateShortCode`) and the collision-avoiding
 * allocation loop of the shorten handler.  `Math.random` is replaced by a
 * sequence of draws, each the value of `Math.floor(Math.random() * 62)`;
 * the allocation consumes them in order, six per candidate and eight for
 * the fallback code.
 */
module ShortCode {
  import opened Wrappers
  import opened Text
  import opened Links

  const Alphabet: string := "abcdefghijklmnopqrstuvwxyzABCDEFGHIJKLMNOPQRSTUVWXYZ0123456789"
  const DefaultLength: nat := 6
  const FallbackLength: nat := 8
  const MaxAttempts: nat := 10

  /** Draws enough for ten candidates and the fallback code. */
  const DrawsNeeded: nat := MaxAttempts * DefaultLength + FallbackLength

  predicate ValidDraws(draws: seq<int>)
  {
    forall i :: 0 <= i < |draws| ==> 0 <= draws[i] < |Alphabet|
  }

  /** The code the draws spell, one alphabet character per draw. */
  function Spell(draws: seq<int>): (code: string)
    requires ValidDraws(draws)
    ensures |code| == |draws|
    ensures forall i :: 0 <= i < |draws| ==> code[i] == Alphabet[draws[i]]
  {
    seq(|draws|, i requires 0 <= i < |draws| => Alphabet[draws[i]])
  }

  const Lowercase: string := "abcdefghijklmnopqrstuvwxyz"
  const Uppercase: string := "ABCDEFGHIJKLMNOPQRSTUVWXYZ"
  const Digits: string := "0123456789"

  lemma AlphabetParts()
    ensures Alphabet == Lowercase + Uppercase + Digits
  {
  }

  /** Position `i` of the alphabet holds a character of `[a-zA-Z0-9]`. */
  lemma AlnumAt(i: int)
    requires 0 <= i < 62
    ensures |Alphabet| == 62 && IsAlnum(Alphabet[i])
  {
    AlphabetParts();
    if i < 26 {
      LowerRun(i);
    } else if i < 52 {
      UpperRun(i - 26);
    } else {
      DigitRun(i - 52);
    }
  }

  /** Every character of `[a-zA-Z0-9]` has a position in the alphabet. */
  lemma PositionOf(c: char) returns (i: nat)
    requires IsAlnum(c)
    ensures i < |Alphabet| && Alphabet[i] == c
  {
    AlphabetParts();
    if 'a' <= c <= 'z' {
      i := c as int - 'a' as int;
      LowerRun(i);
    } else if 'A' <= c <= 'Z' {
      i := 26 + c as int - 'A' as int;
      UpperRun(i - 26);
    } else {
      i := 52 + c as int - '0' as int;
      DigitRun(i - 52);
    }
  }

  /** The alphabet is exactly the class `[a-zA-Z0-9]`, 62 characters. */
  lemma AlphabetIsAlnum()
    ensures |Alphabet| == 62
    ensures forall i :: 0 <= i < |Alphabet| ==> IsAlnum(Alphabet[i])
    ensures forall c :: IsAlnum(c) ==> c in Alphabet
  {
    AlphabetParts();
    forall i | 0 <= i < |Alphabet| ensures IsAlnum(Alphabet[i]) {
      AlnumAt(i);
    }
    forall c | IsAlnum(c) ensures c in Alphabet {
      var i := PositionOf(c);
    }
  }

  lemma LowerRun(k: int)
    requires 0 <= k < 26
    ensures Lowercase[k] as int == 'a' as int + k
  {
  }

  lemma UpperRun(k: int)
    requires 0 <= k < 26
    ensures Uppercase[k] as int == 'A' as int + k
  {
  }

  lemma DigitRun(k: int)
    requires 0 <= k < 10
    ensures Digits[k] as int == '0' as int + k
  {
  }

  /** Every spelled code of positive length passes the redirect's syntax check. */
  lemma SpelledCodeIsAlnum(draws: seq<int>)
    requires ValidDraws(draws) && |draws| > 0
    ensures IsAlnumWord(Spell(draws))
  {
    AlphabetIsAlnum();
  }

  /** `generateShortCode(length)`: the string is built one drawn character at a time. */
  method GenerateShortCode(length: nat, draws: seq<int>) returns (code: string)
    requires length <= |draws| && ValidDraws(draws)
    ensures |code| == length
    ensures forall i :: 0 <= i < length ==> code[i] == Alphabet[draws[i]]
    ensures length > 0 ==> IsAlnumWord(code)
  {
    code := "";
    for i := 0 to length
      invariant |code| == i
      invariant forall j :: 0 <= j < i ==> code[j] == Alphabet[draws[j]]
    {
      code := code + [Alphabet[draws[i]]];
    }
    AlphabetIsAlnum();
  }

  /** The six-character candidate of attempt `j` (counting from 0). */
  function Candidate(draws: seq<int>, j: nat): (code: string)
    requires j < MaxAttempts && |draws| >= DrawsNeeded && ValidDraws(draws)
  {
    Spell(draws[DefaultLength * j..DefaultLength * (j + 1)])
  }

  /** The unchecked eight-character code taken after the tenth attempt. */
  function Fallback(draws: seq<int>): (code: string)
    requires |draws| >= DrawsNeeded && ValidDraws(draws)
  {
    Spell(draws[MaxAttempts * DefaultLength..DrawsNeeded])
  }

  /**
   * The do-while loop from attempt `j` on: generate, look up, count the
   * attempt; once the count reaches `MaxAttempts` switch to the fallback,
   * otherwise stop at the first candidate not in `taken`.
   */
  function Probe(taken: set<string>, draws: seq<int>, j: nat): (string, nat)
    requires j < MaxAttempts && |draws| >= DrawsNeeded && ValidDraws(draws)
    decreases MaxAttempts - j
  {
    var code := Candidate(draws, j);
    if j + 1 >= MaxAttempts then (Fallback(draws), j + 1)
    else if code in taken then Probe(taken, draws, j + 1)
    else (code, j + 1)
  }

  /** The code the loop settles on and the number of lookups it made. */
  function Allocation(taken: set<string>, draws: seq<int>): (string, nat)
    requires |draws| >= DrawsNeeded && ValidDraws(draws)
  {
    Probe(taken, draws, 0)
  }

  lemma {:induction false} ProbeOutcome(taken: set<string>, draws: seq<int>, j: nat)
    requires j < MaxAttempts && |draws| >= DrawsNeeded && ValidDraws(draws)
    ensures var (code, attempts) := Probe(taken, draws, j);
      && j < attempts <= MaxAttempts
      && (forall i :: j <= i < attempts - 1 ==> Candidate(draws, i) in taken)
      && (attempts < MaxAttempts ==> code == Candidate(draws, attempts - 1) && code !in taken)
      && (attempts == MaxAttempts ==> code == Fallback(draws))
    decreases MaxAttempts - j
  {
    if j + 1 < MaxAttempts && Candidate(draws, j) in taken {
      ProbeOutcome(taken, draws, j + 1);
    }
  }

  /**
   * What allocation yields: at most ten lookups; a six-character candidate
   * that was free at its lookup, every earlier candidate having been taken;
   * or, when the first nine candidates were all taken, the unchecked
   * eight-character code, even if the tenth candidate was free.  Either way
   * the code passes the redirect's syntax check.
   */
  lemma AllocationOutcome(taken: set<string>, draws: seq<int>)
    requires |draws| >= DrawsNeeded && ValidDraws(draws)
    ensures var (code, attempts) := Allocation(taken, draws);
      && 1 <= attempts <= MaxAttempts
      && (forall i :: 0 <= i < attempts - 1 ==> Candidate(draws, i) in taken)
      && (attempts < MaxAttempts ==>
            code == Candidate(draws, attempts - 1) && code !in taken && |code| == DefaultLength)
      && (attempts == MaxAttempts ==> code == Fallback(draws) && |code| == FallbackLength)
      && (attempts == MaxAttempts <==>
            forall i :: 0 <= i < MaxAttempts - 1 ==> Candidate(draws, i) in taken)
      && IsAlnumWord(code)
  {
    ProbeOutcome(taken, draws, 0);
    var (code, attempts) := Allocation(taken, draws);
    if attempts < MaxAttempts {
      SpelledCodeIsAlnum(draws[DefaultLength * (attempts - 1)..DefaultLength * attempts]);
      assert Candidate(draws, attempts - 1) !in taken;
    } else {
      SpelledCodeIsAlnum(draws[MaxAttempts * DefaultLength..DrawsNeeded]);
    }
  }

  /**
   * The allocation loop of the shorten handler, reading the store through
   * `Get`: it returns what `Allocation` describes and made `attempts`
   * lookups.
   */
  method AllocateCode(store: LinkStore, draws: seq<int>) returns (code: string, attempts: nat)
    requires |draws| >= DrawsNeeded && ValidDraws(draws)
    modifies store`lookups
    ensures (code, attempts) == Allocation(store.entries.Keys, draws)
    ensures store.lookups == old(store.lookups) + attempts
  {
    var taken := store.entries.Keys;
    attempts := 0;
    var next := 0;
    while true
      invariant attempts < MaxAttempts && next == DefaultLength * attempts
      invariant Probe(taken, draws, attempts) == Allocation(taken, draws)
      invariant store.entries.Keys == taken
      invariant store.lookups == old(store.lookups) + attempts
      decreases MaxAttempts - attempts
    {
      code := GenerateShortCode(DefaultLength, draws[next..]);
      assert code == Candidate(draws, attempts);
      var existing := store.Get(code);
      attempts := attempts + 1;
      next := next + DefaultLength;
      if attempts >= MaxAttempts {
        code := GenerateShortCode(FallbackLength, draws[next..]);
        assert code == Fallback(draws);
        return;
      }
      if existing.None? {
        return;
      }
    }
  }
}
