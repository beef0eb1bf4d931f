/**
 * Strings as the edge handlers use them: ASCII case folding (what the `i`
 * flag of a JavaScript regular expression does for an all-ASCII pattern),
 * prefix/suffix/substring tests and `String.prototype.split` on one
 * separator character.
 */
module Text {

  predicate IsDigit(c: char) { '0' <= c <= '9' }

  predicate IsAsciiLetter(c: char) { 'a' <= c <= 'z' || 'A' <= c <= 'Z' }

  /** One character of the class `[a-zA-Z0-9]`. */
  predicate IsAlnum(c: char) { IsDigit(c) || IsAsciiLetter(c) }

  /** `true` exactly for the strings matched by `/^[a-zA-Z0-9]+$/`. */
  predicate IsAlnumWord(s: string)
  {
    |s| > 0 && forall i :: 0 <= i < |s| ==> IsAlnum(s[i])
  }

  function LowerChar(c: char): (d: char)
    ensures IsAsciiLetter(c) <==> IsAsciiLetter(d)
    ensures !('A' <= d <= 'Z')
  {
    if 'A' <= c <= 'Z' then (c as int + 32) as char else c
  }

  /** ASCII lower-casing, character by character. */
  function Lower(s: string): (r: string)
    ensures |r| == |s|
    ensures forall i :: 0 <= i < |s| ==> r[i] == LowerChar(s[i])
  {
    seq(|s|, i requires 0 <= i < |s| => LowerChar(s[i]))
  }

  predicate StartsWith(s: string, prefix: string)
  {
    |prefix| <= |s| && s[..|prefix|] == prefix
  }

  predicate EndsWith(s: string, suffix: string)
  {
    |suffix| <= |s| && s[|s| - |suffix|..] == suffix
  }

  /** `s.includes(p)`: `p` occurs somewhere in `s`. */
  predicate Contains(s: string, p: string)
    decreases |s|
  {
    StartsWith(s, p) || (|s| > 0 && Contains(s[1..], p))
  }

  /** `true` when `s` ends with one of `suffixes` (the early-return loops over suffix lists). */
  predicate EndsWithAny(s: string, suffixes: seq<string>)
  {
    exists i :: 0 <= i < |suffixes| && EndsWith(s, suffixes[i])
  }

  /** `true` when one of `needles` occurs in `s` (`Array.prototype.some` with `includes`). */
  predicate ContainsAny(s: string, needles: seq<string>)
  {
    exists i :: 0 <= i < |needles| && Contains(s, needles[i])
  }

  lemma EndsWithAnyConcat(s: string, a: seq<string>, b: seq<string>)
    ensures EndsWithAny(s, a + b) <==> EndsWithAny(s, a) || EndsWithAny(s, b)
  {
    if EndsWithAny(s, a + b) {
      var i :| 0 <= i < |a + b| && EndsWith(s, (a + b)[i]);
      if i >= |a| {
        assert (a + b)[i] == b[i - |a|];
      }
    }
    if EndsWithAny(s, a) {
      var i :| 0 <= i < |a| && EndsWith(s, a[i]);
      assert (a + b)[i] == a[i];
    }
    if EndsWithAny(s, b) {
      var i :| 0 <= i < |b| && EndsWith(s, b[i]);
      assert (a + b)[|a| + i] == b[i];
    }
  }

  /** Number of occurrences of `c` in `s`. */
  function Occurrences(s: string, c: char): nat
  {
    if |s| == 0 then 0 else (if s[0] == c then 1 else 0) + Occurrences(s[1..], c)
  }

  /**
   * `s.split(sep)`: the maximal runs between separators, in order; there is
   * always one more piece than there are separators.
   */
  function Split(s: string, sep: char): (parts: seq<string>)
    ensures |parts| == Occurrences(s, sep) + 1
    ensures forall i :: 0 <= i < |parts| ==> sep !in parts[i]
    decreases |s|
  {
    if |s| == 0 then [""]
    else
      var rest := Split(s[1..], sep);
      if s[0] == sep then [""] + rest
      else
        assert forall i :: 1 <= i < |rest| ==> rest[1..][i - 1] == rest[i];
        [[s[0]] + rest[0]] + rest[1..]
  }

  /** `parts.join(sep)`, the inverse of `Split`. */
  function Join(parts: seq<string>, sep: char): string
  {
    if |parts| == 0 then ""
    else if |parts| == 1 then parts[0]
    else parts[0] + [sep] + Join(parts[1..], sep)
  }

  lemma {:induction false} JoinSplit(s: string, sep: char)
    ensures Join(Split(s, sep), sep) == s
    decreases |s|
  {
    if |s| > 0 {
      var rest := Split(s[1..], sep);
      JoinSplit(s[1..], sep);
      if s[0] == sep {
        assert ([""] + rest)[1..] == rest;
      } else if |rest| > 1 {
        var parts := [[s[0]] + rest[0]] + rest[1..];
        assert parts[1..] == rest[1..];
        assert Join(rest, sep) == rest[0] + [sep] + Join(rest[1..], sep);
        assert Join(parts, sep) == [s[0]] + Join(rest, sep);
        assert s == [s[0]] + s[1..];
      } else {
        assert s == [s[0]] + s[1..];
      }
    }
  }

  /**
   * The first piece of `Split(s, sep)` is the longest prefix of `s` free of
   * `sep`: it ends where `s` ends or just before the first `sep`.
   */
  lemma {:induction false} SplitHead(s: string, sep: char)
    ensures var h := Split(s, sep)[0];
      StartsWith(s, h) && sep !in h && (|h| == |s| || s[|h|] == sep)
    decreases |s|
  {
    if |s| > 0 && s[0] != sep {
      SplitHead(s[1..], sep);
      var h' := Split(s[1..], sep)[0];
      assert Split(s, sep)[0] == [s[0]] + h';
      assert s == [s[0]] + s[1..];
    }
  }
}
