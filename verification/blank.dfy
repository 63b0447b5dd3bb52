/** What `str.strip()` removes, and when a description or a reply counts
    as blank. */
module Blank {
  import opened Text

  /** `strip()` keeps a contiguous piece of the input, cuts only whitespace
      on either side of it, and the piece neither starts nor ends with
      whitespace. */
  lemma StripCutsOnlySpace(s: string) returns (a: nat)
    ensures a + |Strip(s)| <= |s|
    ensures Strip(s) == s[a..a + |Strip(s)|]
    ensures AllSpace(s[..a]) && AllSpace(s[a + |Strip(s)|..])
    ensures Strip(s) == [] || (!IsSpace(Strip(s)[0]) && !IsSpace(Strip(s)[|Strip(s)| - 1]))
  {
    a := |s| - |TrimStart(s)|;
    StripIsSlice(s, a);
    StripCutsSpace(s, a);
    StripEdges(s);
  }

  lemma StripIsSlice(s: string, a: nat)
    requires a == |s| - |TrimStart(s)|
    ensures a + |Strip(s)| <= |s| && Strip(s) == s[a..a + |Strip(s)|]
  {
    PieceOfSuffix(s, TrimStart(s), Strip(s), a);
  }

  lemma StripCutsSpace(s: string, a: nat)
    requires a == |s| - |TrimStart(s)|
    ensures a + |Strip(s)| <= |s|
    ensures AllSpace(s[..a]) && AllSpace(s[a + |Strip(s)|..])
  {
    PieceOfSuffix(s, TrimStart(s), Strip(s), a);
  }

  lemma StripEdges(s: string)
    ensures Strip(s) == [] || (!IsSpace(Strip(s)[0]) && !IsSpace(Strip(s)[|Strip(s)| - 1]))
  {
    var t := TrimStart(s);
    assert Strip(s) != [] ==> Strip(s)[0] == t[0];
  }

  /** A prefix `r` of the suffix `t == s[a..]` is the slice of `s` at `a`. */
  lemma PieceOfSuffix(s: string, t: string, r: string, a: nat)
    requires a + |t| == |s| && t == s[a..] && |r| <= |t| && r == t[..|r|]
    ensures r == s[a..a + |r|]
    ensures t[|r|..] == s[a + |r|..]
  {
  }

  /** A string is blank exactly when every character of it is whitespace. */
  lemma BlankIffAllSpace(s: string)
    ensures IsBlank(s) <==> AllSpace(s)
  {
    var a := StripCutsOnlySpace(s);
    var r := Strip(s);
    if r == [] {
      assert s == s[..a] + s[a..];
    } else {
      assert s[a] == r[0];
    }
  }
}
