/** The fragment of Python's `re` that the keyword patterns use: a
    case-insensitive `\b(alt_1|...|alt_n)\b` whose alternatives are literal
    characters and `\s*` / `\s+` gaps. `Matches` is the declarative meaning of
    `pattern.search(text) is not None`; `Search` computes it. */
module Regex {
  import Text

  /** One element of an alternative: a literal (lower-case) character, or a
      whitespace gap `\s*` (`atLeastOne` false) or `\s+` (`atLeastOne` true). */
  datatype Atom = Lit(c: char) | Gap(atLeastOne: bool)

  type Phrase = seq<Atom>

  /** The alternatives of one `\b(...)\b` group, in source order. */
  type Pattern = seq<Phrase>

  /** The phrase matching exactly the characters of `w`. */
  function W(w: string): (p: Phrase)
    ensures |p| == |w|
    ensures forall k :: 0 <= k < |w| ==> p[k] == Lit(w[k])
  {
    seq(|w|, k requires 0 <= k < |w| => Lit(w[k]))
  }

  const S0: Atom := Gap(false)
  const S1: Atom := Gap(true)

  ghost predicate AllSpaceBetween(text: string, i: int, k: int)
    requires 0 <= i <= k <= |text|
  {
    forall m :: i <= m < k ==> Text.IsSpace(text[m])
  }

  /** `p` matches exactly `text[i..j]`. */
  ghost predicate MatchesSpan(text: string, p: Phrase, i: int, j: int)
    requires 0 <= i <= j <= |text|
    decreases |p|
  {
    if p == [] then i == j
    else match p[0]
      case Lit(c) =>
        i < j && Text.Fold(text[i]) == c && MatchesSpan(text, p[1..], i + 1, j)
      case Gap(one) =>
        exists k :: i + (if one then 1 else 0) <= k <= j && AllSpaceBetween(text, i, k)
                    && MatchesSpan(text, p[1..], k, j)
  }

  /** Matches of two phrases at adjacent spans make a match of their concatenation. */
  lemma {:induction false} JoinSpan(text: string, p1: Phrase, p2: Phrase, i: int, k: int, j: int)
    requires 0 <= i <= k <= j <= |text|
    requires MatchesSpan(text, p1, i, k) && MatchesSpan(text, p2, k, j)
    ensures MatchesSpan(text, p1 + p2, i, j)
    decreases |p1|
  {
    if p1 == [] {
      assert p1 + p2 == p2;
    } else {
      var p := p1 + p2;
      assert p[0] == p1[0] && p[1..] == p1[1..] + p2;
      match p1[0]
      case Lit(c) =>
        JoinSpan(text, p1[1..], p2, i + 1, k, j);
        assert MatchesSpan(text, p[1..], i + 1, j);
      case Gap(one) =>
        var m :| i + (if one then 1 else 0) <= m <= k && AllSpaceBetween(text, i, m)
                 && MatchesSpan(text, p1[1..], m, k);
        JoinSpan(text, p1[1..], p2, m, k, j);
        assert MatchesSpan(text, p[1..], m, j);
    }
  }

  /** Whether `p` matches `text[i..j]` depends only on the characters of any
      window `text[a..b]` around that span. */
  lemma {:induction false} SpanIsLocal(text: string, p: Phrase, a: int, b: int, i: int, j: int)
    requires 0 <= a <= i <= j <= b <= |text|
    ensures MatchesSpan(text, p, i, j) <==> MatchesSpan(text[a..b], p, i - a, j - a)
    decreases |p|
  {
    var w := text[a..b];
    if p != [] {
      match p[0]
      case Lit(c) =>
        if i < j {
          assert w[i - a] == text[i];
          SpanIsLocal(text, p[1..], a, b, i + 1, j);
        }
      case Gap(one) =>
        if MatchesSpan(text, p, i, j) {
          GapIntoWindow(text, p, a, b, i, j);
        }
        if MatchesSpan(w, p, i - a, j - a) {
          GapFromWindow(text, p, a, b, i, j);
        }
    }
  }

  lemma GapIntoWindow(text: string, p: Phrase, a: int, b: int, i: int, j: int)
    requires 0 <= a <= i <= j <= b <= |text|
    requires p != [] && p[0].Gap? && MatchesSpan(text, p, i, j)
    ensures MatchesSpan(text[a..b], p, i - a, j - a)
    decreases |p|, 0
  {
    var w := text[a..b];
    var d := if p[0].atLeastOne then 1 else 0;
    var k :| i + d <= k <= j && AllSpaceBetween(text, i, k) && MatchesSpan(text, p[1..], k, j);
    SpanIsLocal(text, p[1..], a, b, k, j);
    forall m | i - a <= m < k - a
      ensures Text.IsSpace(w[m])
    {
      assert w[m] == text[m + a];
    }
    assert AllSpaceBetween(w, i - a, k - a);
  }

  lemma GapFromWindow(text: string, p: Phrase, a: int, b: int, i: int, j: int)
    requires 0 <= a <= i <= j <= b <= |text|
    requires p != [] && p[0].Gap? && MatchesSpan(text[a..b], p, i - a, j - a)
    ensures MatchesSpan(text, p, i, j)
    decreases |p|, 0
  {
    var w := text[a..b];
    var d := if p[0].atLeastOne then 1 else 0;
    var k :| i - a + d <= k <= j - a && AllSpaceBetween(w, i - a, k) && MatchesSpan(w, p[1..], k, j - a);
    SpanIsLocal(text, p[1..], a, b, k + a, j);
    forall m | i <= m < k + a
      ensures Text.IsSpace(text[m])
    {
      assert w[m - a] == text[m];
    }
    assert AllSpaceBetween(text, i, k + a);
  }

  /** A word whose characters fold to themselves matches its own spelling
      wherever it appears. */
  lemma {:induction false} WordSpan(text: string, w: string, i: int)
    requires 0 <= i && i + |w| <= |text| && text[i..i + |w|] == w
    requires Text.FoldsToItself(w)
    ensures MatchesSpan(text, W(w), i, i + |w|)
    decreases |w|
  {
    if w != [] {
      assert W(w)[1..] == W(w[1..]);
      assert text[i] == w[0];
      assert text[i + 1..i + 1 + |w[1..]|] == w[1..];
      WordSpan(text, w[1..], i + 1);
    }
  }

  /** A literal occurrence of `s` in `text`, with no word character on
      either side, is an occurrence of phrase `p` whenever `p` matches all
      of `s`. */
  lemma OccursVerbatim(text: string, s: string, p: Phrase, i: int)
    requires 0 <= i && i + |s| <= |text| && text[i..i + |s|] == s
    requires MatchesSpan(s, p, 0, |s|)
    requires s != [] && Text.IsWordChar(s[0]) && Text.IsWordChar(s[|s| - 1])
    requires i == 0 || !Text.IsWordChar(text[i - 1])
    requires i + |s| == |text| || !Text.IsWordChar(text[i + |s|])
    ensures OccursAt(text, p, i, i + |s|)
  {
    SpanIsLocal(text, p, i, i + |s|, i, i + |s|);
    assert text[i] == s[0] && text[i + |s| - 1] == s[|s| - 1];
  }

  /** A match of a concatenation splits into matches of its two parts. */
  lemma {:induction false} SplitSpan(text: string, p1: Phrase, p2: Phrase, i: int, j: int)
      returns (k: int)
    requires 0 <= i <= j <= |text|
    requires MatchesSpan(text, p1 + p2, i, j)
    ensures i <= k <= j
    ensures MatchesSpan(text, p1, i, k) && MatchesSpan(text, p2, k, j)
    decreases |p1|
  {
    if p1 == [] {
      assert p1 + p2 == p2;
      k := i;
    } else {
      assert (p1 + p2)[0] == p1[0] && (p1 + p2)[1..] == p1[1..] + p2;
      match p1[0]
      case Lit(c) =>
        k := SplitSpan(text, p1[1..], p2, i + 1, j);
      case Gap(one) =>
        var m :| i + (if one then 1 else 0) <= m <= j && AllSpaceBetween(text, i, m)
                 && MatchesSpan(text, p1[1..] + p2, m, j);
        k := SplitSpan(text, p1[1..], p2, m, j);
    }
  }

  /** `\b` at position `i`: a word character on exactly one side. */
  predicate IsBoundary(text: string, i: int)
    requires 0 <= i <= |text|
  {
    var before := i > 0 && Text.IsWordChar(text[i - 1]);
    var after := i < |text| && Text.IsWordChar(text[i]);
    before != after
  }

  /** `\b p \b` matches `text[i..j]`. */
  ghost predicate OccursAt(text: string, p: Phrase, i: int, j: int)
  {
    && 0 <= i <= j <= |text|
    && IsBoundary(text, i)
    && MatchesSpan(text, p, i, j)
    && IsBoundary(text, j)
  }

  /** `re.search` finds the pattern somewhere in `text`. */
  ghost predicate Matches(text: string, pat: Pattern)
  {
    exists a, i, j :: 0 <= a < |pat| && OccursAt(text, pat[a], i, j)
  }

  /** A pattern made of the alternatives of two patterns matches exactly
      when one of them does. */
  lemma MatchesConcat(text: string, p: Pattern, q: Pattern)
    ensures Matches(text, p + q) <==> Matches(text, p) || Matches(text, q)
  {
    if Matches(text, p + q) {
      var a, i, j :| 0 <= a < |p + q| && OccursAt(text, (p + q)[a], i, j);
      if a < |p| {
        assert OccursAt(text, p[a], i, j);
      } else {
        assert OccursAt(text, q[a - |p|], i, j);
      }
    }
    if Matches(text, p) {
      var a, i, j :| 0 <= a < |p| && OccursAt(text, p[a], i, j);
      assert OccursAt(text, (p + q)[a], i, j);
    }
    if Matches(text, q) {
      var a, i, j :| 0 <= a < |q| && OccursAt(text, q[a], i, j);
      assert OccursAt(text, (p + q)[|p| + a], i, j);
    }
  }

  /** The end of the run of whitespace starting at `i`. */
  function SpaceRunEnd(text: string, i: int): (m: int)
    requires 0 <= i <= |text|
    ensures i <= m <= |text|
    ensures AllSpaceBetween(text, i, m)
    ensures m == |text| || !Text.IsSpace(text[m])
    decreases |text| - i
  {
    if i < |text| && Text.IsSpace(text[i]) then SpaceRunEnd(text, i + 1) else i
  }

  /** Every end position `j` such that `p` matches `text[i..j]`. */
  function Ends(text: string, p: Phrase, i: int): (r: set<int>)
    requires 0 <= i <= |text|
    ensures forall j :: j in r <==> i <= j <= |text| && MatchesSpan(text, p, i, j)
    decreases |p|
  {
    if p == [] then {i}
    else match p[0]
      case Lit(c) =>
        if i < |text| && Text.Fold(text[i]) == c then Ends(text, p[1..], i + 1) else {}
      case Gap(one) =>
        var m := SpaceRunEnd(text, i);
        var r := set k, j | i + (if one then 1 else 0) <= k <= m && j in Ends(text, p[1..], k) :: j;
        assert forall j :: i <= j <= |text| && MatchesSpan(text, p, i, j) ==> j in r by {
          forall j | i <= j <= |text| && MatchesSpan(text, p, i, j)
            ensures j in r
          {
            var k :| i + (if one then 1 else 0) <= k <= j && AllSpaceBetween(text, i, k)
                     && MatchesSpan(text, p[1..], k, j);
            assert k <= m;
            assert j in Ends(text, p[1..], k);
          }
        }
        r
  }

  /** Some alternative among `pat[a..]` occurs starting at `i`. */
  function OccursAtFrom(text: string, pat: Pattern, i: int, a: int): (b: bool)
    requires 0 <= i <= |text| && 0 <= a <= |pat|
    ensures b <==> exists a', j :: a <= a' < |pat| && OccursAt(text, pat[a'], i, j)
    decreases |pat| - a
  {
    if a == |pat| then false
    else
      var here := IsBoundary(text, i) && exists j | j in Ends(text, pat[a], i) :: IsBoundary(text, j);
      assert here <==> exists j :: OccursAt(text, pat[a], i, j) by {
        var ends := Ends(text, pat[a], i);
        if exists j :: OccursAt(text, pat[a], i, j) {
          var j :| OccursAt(text, pat[a], i, j);
          assert j in ends;
        }
        if here {
          var j :| j in ends && IsBoundary(text, j);
          assert OccursAt(text, pat[a], i, j);
        }
      }
      here || OccursAtFrom(text, pat, i, a + 1)
  }

  /** Some alternative occurs starting at a position `i` or later. */
  function SearchFrom(text: string, pat: Pattern, i: int): (b: bool)
    requires 0 <= i <= |text|
    ensures b <==> exists a, i', j :: 0 <= a < |pat| && i <= i' && OccursAt(text, pat[a], i', j)
    decreases |text| - i
  {
    OccursAtFrom(text, pat, i, 0) || (i < |text| && SearchFrom(text, pat, i + 1))
  }

  /** `pat.search(text) is not None`. */
  function Search(text: string, pat: Pattern): (found: bool)
    ensures found <==> Matches(text, pat)
  {
    SearchFrom(text, pat, 0)
  }
}
