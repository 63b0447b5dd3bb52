/** Character classes and whitespace stripping as Python's `str` and `re`
    modules define them for the characters the classifier cares about. */
module Text {

  /** Python's `str.isspace()`, which is also what `\s` and `str.strip()` use. */
  predicate IsSpace(c: char)
  {
    var n := c as int;
    || 0x09 <= n <= 0x0D
    || 0x1C <= n <= 0x20
    || n == 0x85
    || n == 0xA0
    || n == 0x1680
    || 0x2000 <= n <= 0x200A
    || n == 0x2028
    || n == 0x2029
    || n == 0x202F
    || n == 0x205F
    || n == 0x3000
  }

  predicate IsAsciiUpper(c: char)
  {
    'A' <= c <= 'Z'
  }

  /** The characters that case-insensitive matching folds onto an ASCII
      letter other than its two ASCII cases: dotted and dotless i, long s
      and the Kelvin sign. */
  predicate IsSpecialFold(c: char)
  {
    var n := c as int;
    n == 0x130 || n == 0x131 || n == 0x17F || n == 0x212A
  }

  /** `\w`: ASCII letters, digits and underscore, and the letters above. */
  predicate IsWordChar(c: char)
  {
    || 'a' <= c <= 'z'
    || IsAsciiUpper(c)
    || '0' <= c <= '9'
    || c == '_'
    || IsSpecialFold(c)
  }

  /** The character a case-insensitive pattern compares against its own
      (lower-case) character. */
  function Fold(c: char): (f: char)
    ensures IsWordChar(c) <==> IsWordChar(f)
    ensures !IsSpecialFold(c) && !IsAsciiUpper(c) ==> f == c
    ensures IsSpace(c) ==> f == c
  {
    var n := c as int;
    if IsAsciiUpper(c) then (n + 32) as char
    else if n == 0x130 || n == 0x131 then 'i'
    else if n == 0x17F then 's'
    else if n == 0x212A then 'k'
    else c
  }

  predicate IsLowerCase(s: string)
  {
    forall k :: 0 <= k < |s| ==> !IsAsciiUpper(s[k])
  }

  function LowerChar(c: char): (l: char)
    ensures !IsAsciiUpper(l)
  {
    if IsAsciiUpper(c) then (c as int + 32) as char else c
  }

  /** `str.lower()` restricted to ASCII letters. */
  function LowerAscii(s: string): (r: string)
    ensures |r| == |s| && IsLowerCase(r)
    ensures forall k :: 0 <= k < |s| ==> r[k] == LowerChar(s[k])
  {
    if s == [] then [] else [LowerChar(s[0])] + LowerAscii(s[1..])
  }

  ghost predicate AllSpace(s: string)
  {
    forall k :: 0 <= k < |s| ==> IsSpace(s[k])
  }

  /** `s.lstrip()`: the longest suffix of `s` that does not start with whitespace. */
  function TrimStart(s: string): (r: string)
    ensures |r| <= |s| && r == s[|s| - |r|..]
    ensures AllSpace(s[..|s| - |r|])
    ensures r == [] || !IsSpace(r[0])
  {
    if s != [] && IsSpace(s[0]) then
      var r := TrimStart(s[1..]);
      SuffixOfTail(s, |r|);
      AllSpacePrepend(s[0], s[1..][..|s| - 1 - |r|]);
      r
    else s
  }

  /** `s.rstrip()`: the longest prefix of `s` that does not end with whitespace. */
  function TrimEnd(s: string): (r: string)
    ensures |r| <= |s| && r == s[..|r|]
    ensures AllSpace(s[|r|..])
    ensures r == [] || !IsSpace(r[|r| - 1])
  {
    if s != [] && IsSpace(s[|s| - 1]) then
      var r := TrimEnd(s[..|s| - 1]);
      PrefixOfInit(s, |r|);
      AllSpaceAppend(s[..|s| - 1][|r|..], s[|s| - 1]);
      r
    else s
  }

  /** Slices of `s` without its first character, seen as slices of `s`. */
  lemma SuffixOfTail(s: string, n: nat)
    requires 0 < |s| && n <= |s| - 1
    ensures s[1..][|s| - 1 - n..] == s[|s| - n..]
    ensures s[..|s| - n] == [s[0]] + s[1..][..|s| - 1 - n]
  {
  }

  /** Slices of `s` without its last character, seen as slices of `s`. */
  lemma PrefixOfInit(s: string, n: nat)
    requires 0 < |s| && n <= |s| - 1
    ensures s[..|s| - 1][..n] == s[..n]
    ensures s[n..] == s[..|s| - 1][n..] + [s[|s| - 1]]
  {
  }

  lemma AllSpacePrepend(c: char, s: string)
    requires IsSpace(c) && AllSpace(s)
    ensures AllSpace([c] + s)
  {
    assert forall k :: 0 < k < |[c] + s| ==> ([c] + s)[k] == s[k - 1];
  }

  lemma AllSpaceAppend(s: string, c: char)
    requires AllSpace(s) && IsSpace(c)
    ensures AllSpace(s + [c])
  {
    assert forall k :: 0 <= k < |s| ==> (s + [c])[k] == s[k];
  }

  /** `s.strip()`: `s` without leading and trailing whitespace. */
  function Strip(s: string): string
  {
    TrimEnd(TrimStart(s))
  }

  /** Every character of `w` folds to itself. */
  predicate FoldsToItself(w: string)
  {
    w == [] || (Fold(w[0]) == w[0] && FoldsToItself(w[1..]))
  }

  /** `not s or not s.strip()`: the empty string is blank, and a string
      that starts with a non-whitespace character is not. */
  predicate IsBlank(s: string): (b: bool)
    ensures s == [] ==> b
    ensures s != [] && !IsSpace(s[0]) ==> !b
  {
    Strip(s) == []
  }
}
