/** The JavaScript string operations the core relies on, over `seq<char>`. */
module Text {
  import opened Common

  predicate StartsWith(s: string, prefix: string) {
    |prefix| <= |s| && s[..|prefix|] == prefix
  }

  predicate EndsWith(s: string, suffix: string) {
    |suffix| <= |s| && s[|s| - |suffix|..] == suffix
  }

  /** `pat` occurs in `s` at position `j`. */
  predicate OccursAt(s: string, pat: string, j: nat) {
    j + |pat| <= |s| && s[j..j + |pat|] == pat
  }

  /** The first occurrence of `pat` in `s` at or after position `k`. */
  function IndexOfFrom(s: string, pat: string, k: nat): (r: Option<nat>)
    requires k <= |s|
    ensures r.Some? ==> k <= r.value && r.value + |pat| <= |s|
    decreases |s| - k
  {
    if k + |pat| > |s| then None
    else if s[k..k + |pat|] == pat then Some(k)
    else IndexOfFrom(s, pat, k + 1)
  }

  /** `IndexOfFrom` finds an occurrence, and none lies before it. */
  lemma {:induction false} IndexOfFromFirst(s: string, pat: string, k: nat)
    requires k <= |s|
    ensures IndexOfFrom(s, pat, k).Some? ==>
      k <= IndexOfFrom(s, pat, k).value && OccursAt(s, pat, IndexOfFrom(s, pat, k).value)
    ensures forall j: nat :: k <= j && (IndexOfFrom(s, pat, k).None? || j < IndexOfFrom(s, pat, k).value) ==>
      !OccursAt(s, pat, j)
    decreases |s| - k
  {
    if k + |pat| <= |s| && s[k..k + |pat|] != pat {
      IndexOfFromFirst(s, pat, k + 1);
    }
  }

  /** `s.indexOf(pat)`, with `undefined` for -1. */
  function IndexOf(s: string, pat: string): (r: Option<nat>)
    ensures r.Some? ==> r.value + |pat| <= |s|
  {
    IndexOfFrom(s, pat, 0)
  }

  /** `indexOf` gives the first occurrence, or none when there is none. */
  lemma IndexOfFirst(s: string, pat: string)
    ensures IndexOf(s, pat).Some? ==> OccursAt(s, pat, IndexOf(s, pat).value)
    ensures forall j: nat :: (IndexOf(s, pat).None? || j < IndexOf(s, pat).value) ==> !OccursAt(s, pat, j)
  {
    IndexOfFromFirst(s, pat, 0);
  }

  /** `s.includes(pat)`. */
  predicate Contains(s: string, pat: string) {
    IndexOf(s, pat).Some?
  }

  /** `s.replace(pat, rep)` with a string pattern: only the first occurrence
      is replaced. */
  function ReplaceFirst(s: string, pat: string, rep: string): string {
    match IndexOf(s, pat)
    case None => s
    case Some(i) => s[..i] + rep + s[i + |pat|..]
  }

  /** A pattern at the very start is the first occurrence. */
  lemma ReplaceLeading(s: string, pat: string, rep: string)
    requires StartsWith(s, pat)
    ensures ReplaceFirst(s, pat, rep) == rep + s[|pat|..]
  {
    assert OccursAt(s, pat, 0);
  }

  /** A pattern holding a character that `s` lacks does not occur in `s`. */
  lemma ReplaceAbsent(s: string, pat: string, rep: string, k: nat)
    requires k < |pat| && pat[k] !in s
    ensures IndexOf(s, pat).None? && ReplaceFirst(s, pat, rep) == s
  {
    IndexOfFirst(s, pat);
    forall j: nat ensures !OccursAt(s, pat, j) {
      if j + |pat| <= |s| {
        assert s[j..j + |pat|][k] == s[j + k];
        assert s[j + k] in s;
      }
    }
  }

  /** A pattern longer than `s` does not occur in `s`. */
  lemma ReplaceTooLong(s: string, pat: string, rep: string)
    requires |s| < |pat|
    ensures ReplaceFirst(s, pat, rep) == s
  {
  }

  /** The position of the last `c` in `s`. */
  function LastIndexOf(s: string, c: char): (r: Option<nat>)
    ensures r.Some? ==> r.value < |s| && s[r.value] == c
    ensures forall j :: 0 <= j < |s| && (r.None? || r.value < j) ==> s[j] != c
  {
    if |s| == 0 then None
    else if s[|s| - 1] == c then Some(|s| - 1)
    else LastIndexOf(s[..|s| - 1], c)
  }

  /** Lower-casing of the letters A to Z; every other character is kept. */
  function LowerChar(c: char): char {
    if 'A' <= c <= 'Z' then (c as int + 32) as char else c
  }

  function ToLower(s: string): (r: string)
    ensures |r| == |s| && forall i :: 0 <= i < |s| ==> r[i] == LowerChar(s[i])
  {
    seq(|s|, i requires 0 <= i < |s| => LowerChar(s[i]))
  }

  /** `parts.join(",")`, which is also what a template literal makes of an
      array. */
  function JoinComma(parts: seq<string>): string {
    if |parts| == 0 then ""
    else if |parts| == 1 then parts[0]
    else parts[0] + "," + JoinComma(parts[1..])
  }
}
