/** The few Python string operations the generator relies on: substring
    membership (`pat in s`), `s.split(sep, 1)` and `s.upper()`. */
module Text {
  import opened Wrappers

  /** `pat` occurs in `s` starting at index `i`. */
  predicate OccursAt(s: string, pat: string, i: nat) {
    i + |pat| <= |s| && s[i..i + |pat|] == pat
  }

  /** Python's `pat in s` for two strings. */
  predicate Contains(s: string, pat: string) {
    exists i: nat | i <= |s| :: OccursAt(s, pat, i)
  }

  /** `k` is the index of the leftmost occurrence of `pat` in `s`. */
  predicate IsFirstOccurrence(s: string, pat: string, k: nat) {
    OccursAt(s, pat, k) && forall j: nat :: j < k ==> !OccursAt(s, pat, j)
  }

  /** `s` contains no slash. */
  predicate NoSlash(s: string) {
    forall i :: 0 <= i < |s| ==> s[i] != '/'
  }

  /** Leftmost occurrence of `pat` in `s` at or after index `from`. */
  function FindFrom(s: string, pat: string, from: nat): (r: Option<nat>)
    decreases |s| - from
    ensures r.Some? ==> from <= r.value && OccursAt(s, pat, r.value)
    ensures r.Some? ==> forall j: nat :: from <= j < r.value ==> !OccursAt(s, pat, j)
    ensures r.None? ==> forall j: nat :: from <= j ==> !OccursAt(s, pat, j)
  {
    if from + |pat| > |s| then None
    else if s[from..from + |pat|] == pat then Some(from)
    else FindFrom(s, pat, from + 1)
  }

  /** Leftmost occurrence of `pat` in `s` (`str.find` without the -1). */
  function Find(s: string, pat: string): (r: Option<nat>)
    ensures r.Some? <==> Contains(s, pat)
    ensures r.Some? ==> IsFirstOccurrence(s, pat, r.value)
  {
    FindFrom(s, pat, 0)
  }

  /** Python's `s.split(sep, 1)`: the whole string when `sep` does not occur,
      otherwise the text before and after its leftmost occurrence. */
  function SplitOnce(s: string, sep: string): (parts: seq<string>)
    requires sep != ""
    ensures |parts| == 1 || |parts| == 2
    ensures |parts| == 1 <==> !Contains(s, sep)
    ensures |parts| == 1 ==> parts[0] == s
    ensures |parts| == 2 ==> parts[0] + sep + parts[1] == s
    ensures |parts| == 2 ==> IsFirstOccurrence(s, sep, |parts[0]|)
  {
    match Find(s, sep)
    case None => [s]
    case Some(k) => [s[..k], s[k + |sep|..]]
  }

  /** Upper-case of one character, ASCII letters only. */
  function UpperChar(c: char): char {
    if 'a' <= c <= 'z' then (c as int - 'a' as int + 'A' as int) as char else c
  }

  /** Python's `s.upper()` restricted to ASCII letters. */
  function Upper(s: string): (r: string)
    ensures |r| == |s|
    ensures forall i :: 0 <= i < |s| ==> r[i] == UpperChar(s[i])
  {
    seq(|s|, i requires 0 <= i < |s| => UpperChar(s[i]))
  }

  /** `s` is already upper-case. */
  predicate IsUpper(s: string) {
    Upper(s) == s
  }
}
