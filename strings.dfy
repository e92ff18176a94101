/** Splitting a string at the last occurrence of a separator: the primitive
    behind Python's `str.rfind`, used for path components, file suffixes and
    for reading an output file name back. */
module Strings {
  import opened Wrappers

  /** Splits `s` at the LAST occurrence of `c`; None when `c` does not occur. */
  function SplitLast(s: string, c: char): (r: Option<(string, string)>)
    ensures r.None? <==> c !in s
    ensures r.Some? ==> s == r.value.0 + [c] + r.value.1 && c !in r.value.1
    decreases |s|
  {
    if s == [] then None
    else if s[|s| - 1] == c then Some((s[..|s| - 1], []))
    else
      match SplitLast(s[..|s| - 1], c)
      case None => None
      case Some((front, back)) => Some((front, back + [s[|s| - 1]]))
  }

  /** Splitting a joined string at a separator that does not occur in the
      tail gives back the two parts. */
  lemma {:induction false} SplitLastOfJoin(front: string, c: char, back: string)
    requires c !in back
    ensures SplitLast(front + [c] + back, c) == Some((front, back))
    decreases |back|
  {
    var s := front + [c] + back;
    if back == [] {
      assert s[..|s| - 1] == front;
    } else {
      var init := back[..|back| - 1];
      assert back == init + [back[|back| - 1]];
      assert s[..|s| - 1] == front + [c] + init;
      SplitLastOfJoin(front, c, init);
    }
  }

  predicate EndsWith(s: string, suffix: string)
  {
    |suffix| <= |s| && s[|s| - |suffix|..] == suffix
  }

  lemma EndsWithJoin(s: string, suffix: string)
    ensures EndsWith(s + suffix, suffix) && (s + suffix)[..|s|] == s
  {
  }
}
