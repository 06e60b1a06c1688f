/** The string operations the CLI and the builders rely on. */
module Text {
  import opened Wrappers

  /** `c.upper()` for one character; only the ASCII letters are mapped. */
  function UpperChar(c: char): char
  {
    if 'a' <= c <= 'z' then (c as int - 32) as char else c
  }

  /** `s.upper()`, character by character. */
  function Upper(s: string): (u: string)
    ensures |u| == |s|
    ensures forall i :: 0 <= i < |s| ==> u[i] == UpperChar(s[i])
  {
    seq(|s|, i requires 0 <= i < |s| => UpperChar(s[i]))
  }

  /** An upper-case ASCII word, such as "NDVI" or "TIFF". */
  predicate IsUpperWord(w: string)
  {
    forall i :: 0 <= i < |w| ==> 'A' <= w[i] <= 'Z'
  }

  /** The lower-case partner of an upper-case ASCII letter. */
  function LowerOf(c: char): char
    requires 'A' <= c <= 'Z'
  {
    (c as int + 32) as char
  }

  /** `s` spells `w` in any mixture of upper and lower case. */
  predicate MatchesIgnoringCase(s: string, w: string)
    requires IsUpperWord(w)
  {
    |s| == |w| && forall i :: 0 <= i < |s| ==> s[i] == w[i] || s[i] == LowerOf(w[i])
  }

  /** Comparing `s.upper()` with an upper-case word is a case-insensitive comparison. */
  lemma {:induction false} UpperEqualsIff(s: string, w: string)
    requires IsUpperWord(w)
    ensures Upper(s) == w <==> MatchesIgnoringCase(s, w)
  {
    if Upper(s) == w {
      forall i | 0 <= i < |s| ensures s[i] == w[i] || s[i] == LowerOf(w[i]) {
        assert UpperChar(s[i]) == w[i];
      }
    }
    if MatchesIgnoringCase(s, w) {
      forall i | 0 <= i < |s| ensures Upper(s)[i] == w[i] {
        assert UpperChar(s[i]) == w[i];
      }
    }
  }

  /** `s.endswith(suffix)`, compared character by character (case-sensitive). */
  predicate EndsWith(s: string, suffix: string)
  {
    |suffix| <= |s| && s[|s| - |suffix|..] == suffix
  }

  lemma AppendEndsWith(s: string, suffix: string)
    ensures EndsWith(s + suffix, suffix)
  {
    assert (s + suffix)[|s|..] == suffix;
  }

  /** Removes `suffix` from the end of `s`, when `s` ends with it. */
  function DropSuffix(s: string, suffix: string): (r: Option<string>)
    ensures r.Some? <==> EndsWith(s, suffix)
    ensures r.Some? ==> s == r.value + suffix
  {
    if EndsWith(s, suffix) then
      var prefix := s[..|s| - |suffix|];
      assert s == prefix + s[|s| - |suffix|..];
      Some(prefix)
    else None
  }

  lemma {:induction false} DropSuffixOfAppend(s: string, suffix: string)
    ensures DropSuffix(s + suffix, suffix) == Some(s)
  {
    AppendEndsWith(s, suffix);
    assert (s + suffix)[..|s|] == s;
  }
}
