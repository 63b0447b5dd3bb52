/** The low-priority phrase `not\s*urgent` (line 66 of
    backend/tickets/llm_service.py) against the bare `urgent` of the critical
    pattern (line 58), which the tiers test first (lines 75-80). */
module Urgency {
  import opened Regex
  import opened Labels
  import opened Keywords
  import opened Wrappers
  import opened Engine
  import opened Reply
  import opened Tickets
  import Text

  /** "not urgent" written with at least one blank. */
  const NegatedUrgent: Phrase := W("not") + [S1] + W("urgent")

  const Urgent: Phrase := W("urgent")

  /** Where "not urgent" occurs, the low phrase occurs and so does "urgent"
      on its own, after the blank. */
  lemma NegatedUrgentOccurrence(d: string, i: int, j: int) returns (k: int)
    requires OccursAt(d, NegatedUrgent, i, j)
    ensures OccursAt(d, LOW_PRIORITY[2], i, j)
    ensures i <= k <= j && OccursAt(d, Urgent, k, j)
  {
    k := SplitSpan(d, W("not") + [S1], Urgent, i, j);
    var m := SplitSpan(d, W("not"), [S1], i, k);
    var k' :| m + 1 <= k' <= k && AllSpaceBetween(d, m, k') && MatchesSpan(d, [S1][1..], k', k);
    assert k' == k;
    assert Text.IsSpace(d[k - 1]);
    assert Text.Fold(d[k]) == 'u';
    assert IsBoundary(d, k);
    assert MatchesSpan(d, [S0][1..], k, k);
    assert MatchesSpan(d, [S0], m, k);
    JoinSpan(d, W("not"), [S0], i, m, k);
    JoinSpan(d, W("not") + [S0], Urgent, i, k, j);
  }

  /** As written: a description that says "not urgent" carries a low cue,
      yet its keyword priority is critical. */
  lemma NegatedUrgentReadsCritical(d: string)
    requires Matches(d, [NegatedUrgent])
    ensures Matches(d, LOW_PRIORITY)
    ensures SuggestedPriority(d) == Critical
  {
    var a, i, j :| 0 <= a < 1 && OccursAt(d, [NegatedUrgent][a], i, j);
    var k := NegatedUrgentOccurrence(d, i, j);
    assert OccursAt(d, CRITICAL_PRIORITY[9], k, j);
  }

  const MinorCosmetic: string := "minor cosmetic issue with the button color, not urgent"

  /** The source's own low-priority example phrase ends up critical. */
  lemma MinorCosmeticExample()
    ensures Matches(MinorCosmetic, LOW_PRIORITY)
    ensures SuggestedPriority(MinorCosmetic) == Critical
  {
    MinorCosmeticSaysNotUrgent();
    NegatedUrgentReadsCritical(MinorCosmetic);
  }

  lemma MinorCosmeticSaysNotUrgent()
    ensures Matches(MinorCosmetic, [NegatedUrgent])
  {
    NotUrgentMatches();
    assert MinorCosmetic[44..54] == "not urgent";
    OccursVerbatim(MinorCosmetic, "not urgent", NegatedUrgent, 44);
    assert OccursAt(MinorCosmetic, [NegatedUrgent][0], 44, 54);
  }

  /** The phrase matches its own plain spelling. */
  lemma NotUrgentMatches()
    ensures MatchesSpan("not urgent", NegatedUrgent, 0, 10)
  {
    var t := "not urgent";
    assert t[0..3] == "not" && t[4..10] == "urgent";
    WordSpan(t, "not", 0);
    WordSpan(t, "urgent", 4);
    assert MatchesSpan(t, [S1][1..], 4, 4);
    assert AllSpaceBetween(t, 3, 4);
    assert MatchesSpan(t, [S1], 3, 4);
    JoinSpan(t, W("not"), [S1], 0, 3, 4);
    JoinSpan(t, W("not") + [S1], Urgent, 0, 4, 10);
  }

  /** The critical alternatives other than "urgent". */
  const CRITICAL_EXCEPT_URGENT: Pattern := CRITICAL_PRIORITY[..9] + CRITICAL_PRIORITY[10..]

  /** The critical pattern is the other alternatives plus "urgent". */
  lemma CriticalSplits(d: string)
    ensures Matches(d, CRITICAL_PRIORITY) <==> Matches(d, CRITICAL_EXCEPT_URGENT) || Matches(d, [Urgent])
  {
    var before, after := CRITICAL_PRIORITY[..9], CRITICAL_PRIORITY[10..];
    assert CRITICAL_PRIORITY == before + [Urgent] + after;
    MatchesConcat(d, before + [Urgent], after);
    MatchesConcat(d, before, [Urgent]);
    MatchesConcat(d, before, after);
  }

  /** Corrected critical cue: "urgent" counts only in a description that
      nowhere says "not urgent". */
  function CriticalCueCorrected(d: string): (b: bool)
    ensures b <==> Matches(d, CRITICAL_EXCEPT_URGENT)
                   || (Matches(d, [Urgent]) && !Matches(d, [NegatedUrgent]))
  {
    Search(d, CRITICAL_EXCEPT_URGENT) || (Search(d, [Urgent]) && !Search(d, [NegatedUrgent]))
  }

  /** The keyword flags with the corrected critical cue; all others as written. */
  function CorrectedFlags(d: string): (f: Flags)
    ensures f.crit <==> CriticalCueCorrected(d)
    ensures f.(crit := false) == FlagsOf(d).(crit := false)
  {
    FlagsOf(d).(crit := CriticalCueCorrected(d))
  }

  /** The keyword priority with the corrected critical cue. */
  function SuggestedPriorityCorrected(d: string): (p: Priority)
    ensures d == [] ==> p == Medium
    ensures p == Critical <==> d != [] && CriticalCueCorrected(d)
    ensures p == High <==> d != [] && !CriticalCueCorrected(d) && Matches(d, HIGH_PRIORITY)
    ensures p == Low <==> d != [] && !CriticalCueCorrected(d) && !Matches(d, HIGH_PRIORITY)
                          && Matches(d, LOW_PRIORITY)
  {
    if d == [] then Medium
    else Tier(CorrectedFlags(d))
  }

  /** Corrected: "not urgent" with no other critical or high cue is low. */
  lemma NegatedUrgentReadsLow(d: string)
    requires Matches(d, [NegatedUrgent])
    requires !Matches(d, CRITICAL_EXCEPT_URGENT) && !Matches(d, HIGH_PRIORITY)
    ensures SuggestedPriorityCorrected(d) == Low
  {
    var a, i, j :| 0 <= a < 1 && OccursAt(d, [NegatedUrgent][a], i, j);
    var k := NegatedUrgentOccurrence(d, i, j);
  }

  /** The correction changes nothing for descriptions without "not urgent". */
  lemma CorrectionIsConservative(d: string)
    requires !Matches(d, [NegatedUrgent])
    ensures SuggestedPriorityCorrected(d) == SuggestedPriority(d)
  {
    CriticalSplits(d);
  }

  /** `classify_ticket` with the corrected critical cue. The correction never
      changes whether there is an answer, nor its category. */
  function ClassifyTicketCorrected(d: string, o: Oracle): (r: Option<Classification>)
    ensures r.None? <==> ClassifyTicket(d, o).None?
    ensures r.Some? ==> r.value.category == ClassifyTicket(d, o).value.category
  {
    var f := FlagsOf(d);
    CriticalFlagOnlyAffectsPriority(Text.IsBlank(d), f, Interpret(o), CriticalCueCorrected(d));
    Decide(Text.IsBlank(d), CorrectedFlags(d), Interpret(o))
  }

  /** The corrected classifier changes nothing for descriptions that never
      say "not urgent". */
  lemma CorrectedClassifierIsConservative(d: string, o: Oracle)
    requires !Matches(d, [NegatedUrgent])
    ensures ClassifyTicketCorrected(d, o) == ClassifyTicket(d, o)
  {
    CorrectedFlagsUnchanged(d);
  }

  /** Without "not urgent" the corrected flags are the flags as written. */
  lemma CorrectedFlagsUnchanged(d: string)
    requires !Matches(d, [NegatedUrgent])
    ensures CorrectedFlags(d) == FlagsOf(d)
  {
    CriticalSplits(d);
    assert CriticalCueCorrected(d) == FlagsOf(d).crit;
  }
}
