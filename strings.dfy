/** The part of Go's `strings` package the core relies on. */
module Strings {

  /** `s` ends with the character `c`. */
  predicate EndsWith(s: string, c: char) {
    |s| > 0 && s[|s| - 1] == c
  }

  /** Every character of `s` occurs in `cutset`. */
  predicate AllIn(s: string, cutset: string) {
    forall i | 0 <= i < |s| :: s[i] in cutset
  }

  /** `t` is `s` with a (possibly empty) run of trailing `cutset` characters removed,
      and nothing further could be removed: the independent description of TrimRight. */
  ghost predicate IsRightTrimmed(s: string, cutset: string, t: string) {
    && t <= s
    && (forall i | |t| <= i < |s| :: s[i] in cutset)
    && (t == [] || t[|t| - 1] !in cutset)
  }

  /** `strings.TrimRight(s, cutset)`: drops every trailing character that occurs in `cutset`. */
  function TrimRight(s: string, cutset: string): (r: string)
    ensures r <= s
    ensures forall i | |r| <= i < |s| :: s[i] in cutset
    ensures r == [] || r[|r| - 1] !in cutset
    decreases |s|
  {
    if |s| > 0 && s[|s| - 1] in cutset then TrimRight(s[..|s| - 1], cutset) else s
  }

  /** TrimRight meets the independent description, and it is the only string that does. */
  lemma TrimRightIsTheRightTrim(s: string, cutset: string, t: string)
    ensures IsRightTrimmed(s, cutset, TrimRight(s, cutset))
    ensures IsRightTrimmed(s, cutset, t) ==> t == TrimRight(s, cutset)
  {
  }

  /** The result is empty exactly when the whole input consists of cutset characters. */
  lemma TrimRightEmptyIff(s: string, cutset: string)
    ensures TrimRight(s, cutset) == [] <==> AllIn(s, cutset)
  {
  }

  /** A string that already ends in a non-cutset character is left as it is. */
  lemma TrimRightKeepsTrimmed(s: string, cutset: string)
    requires s != [] && s[|s| - 1] !in cutset
    ensures TrimRight(s, cutset) == s
  {
  }

  /** Trimming `s + tail` where `tail` is all cutset characters gives the trim of `s`. */
  lemma {:induction false} TrimRightDropsTail(s: string, tail: string, cutset: string)
    requires AllIn(tail, cutset)
    ensures TrimRight(s + tail, cutset) == TrimRight(s, cutset)
    decreases |tail|
  {
    if tail != [] {
      var shorter := tail[..|tail| - 1];
      assert (s + tail)[..|s + tail| - 1] == s + shorter;
      TrimRightDropsTail(s, shorter, cutset);
    } else {
      assert s + tail == s;
    }
  }
}
