/** `classify_ticket` of backend/tickets/llm_service.py on a description
    string and an oracle. */
module Tickets {
  import opened Wrappers
  import opened Labels
  import opened Keywords
  import opened Engine
  import opened Reply
  import Text
  import Blank
  import Regex

  /** The (category, priority) suggestion for a description, or `None`. */
  function ClassifyTicket(description: string, oracle: Oracle): (r: Option<Classification>)
    ensures r == None <==>
              || Text.IsBlank(description)
              || (&& !LooksOutageOrDown(description)
                  && oracle.Answered?
                  && (|| Text.IsBlank(oracle.text)
                      || (&& Readable(oracle.decoded)
                          && (|| FieldText(oracle.decoded.category).value !in CategoryNames
                              || FieldText(oracle.decoded.priority).value !in PriorityNames))))
    ensures !Text.IsBlank(description) && LooksOutageOrDown(description) ==> r == Some(OutageAnswer)
  {
    var blank := Text.IsBlank(description);
    var f := FlagsOf(description);
    assert f.outage == LooksOutageOrDown(description);
    Decide(blank, f, Interpret(oracle))
  }

  /** A blank description gives `None` and the oracle plays no part. */
  lemma BlankIgnoresOracle(description: string, o: Oracle, o': Oracle)
    requires Text.AllSpace(description)
    ensures ClassifyTicket(description, o) == ClassifyTicket(description, o') == None
  {
    Blank.BlankIffAllSpace(description);
  }

  /** No API key, an exception from the call and an undecodable reply all
      give the keyword answer: first cued category in account, billing,
      technical, general order, with the keyword priority. */
  lemma {:induction false} FallbackPaths(description: string, text: string)
    requires !Text.IsBlank(description) && !LooksOutageOrDown(description)
    requires !Text.IsBlank(text)
    ensures ClassifyTicket(description, KeyMissing) == ClassifyTicket(description, CallFailed)
            == ClassifyTicket(description, Answered(text, NotJson))
            == ClassifyTicket(description, Answered(text, NotObject))
            == Some(Classification(FirstCued(FlagsOf(description), FallbackOrder),
                                   SuggestedPriority(description)))
  {
    KeywordAnswer(description);
    KeywordPath(description, KeyMissing);
    KeywordPath(description, CallFailed);
    KeywordPath(description, Answered(text, NotJson));
    KeywordPath(description, Answered(text, NotObject));
  }

  /** An oracle step that ends without labels gives the keyword-only answer. */
  lemma KeywordPath(description: string, o: Oracle)
    requires !Text.IsBlank(description)
    requires Interpret(o) == Engine.NoKey || Interpret(o) == Engine.Raised
    ensures ClassifyTicket(description, o) == Some(Fallback(FlagsOf(description)))
  {
  }

  /** Without outage language, the keyword-only answer is the first cued
      category with the keyword priority. */
  lemma KeywordAnswer(description: string)
    requires description != [] && !LooksOutageOrDown(description)
    ensures Fallback(FlagsOf(description))
            == Classification(FirstCued(FlagsOf(description), FallbackOrder), SuggestedPriority(description))
  {
    FallbackIsFirstCued(FlagsOf(description));
  }

  /** A readable reply with two valid labels is kept, up to the keyword
      corrections of the category and the priority. */
  lemma AnswerIsCorrected(description: string, text: string, category: Field, priority: Field)
    requires !Text.IsBlank(description) && !Text.IsBlank(text)
    requires Readable(Object(category, priority))
    requires FieldText(category).value in CategoryNames && FieldText(priority).value in PriorityNames
    ensures ClassifyTicket(description, Answered(text, Object(category, priority)))
            == Some(Classification(
                 CorrectCategory(ParseCategory(FieldText(category).value).value, FlagsOf(description)),
                 CorrectPriority(ParsePriority(FieldText(priority).value).value, FlagsOf(description))))
  {
  }

  /** An oracle answer whose labels lower-case to technical/medium, for any
      description with billing words and neither account, technical nor
      outage words, becomes billing with the keyword priority.
      `ChargedTwiceLooksBilling` shows the billing half of this for
      "I was charged twice for my subscription". */
  lemma TechnicalMediumOnBillingOnlyText(description: string, text: string, category: Field, priority: Field)
    requires !Text.IsBlank(description) && !Text.IsBlank(text)
    requires LooksBilling(description)
    requires !LooksAccount(description) && !LooksTechnical(description) && !LooksOutageOrDown(description)
    requires FieldText(category) == Some(CategoryName(Technical))
    requires FieldText(priority) == Some(PriorityName(Medium))
    ensures ClassifyTicket(description, Answered(text, Object(category, priority)))
            == Some(Classification(Billing, SuggestedPriority(description)))
  {
    CategoryRoundTrip(Technical);
    PriorityRoundTrip(Medium);
    BillingOnlyCorrections(description);
    AnswerIsCorrected(description, text, category, priority);
  }

  /** With billing words only, an oracle technical/medium is corrected to
      billing with the keyword priority. */
  lemma BillingOnlyCorrections(description: string)
    requires description != [] && LooksBilling(description)
    requires !LooksAccount(description) && !LooksTechnical(description) && !LooksOutageOrDown(description)
    ensures CorrectCategory(Technical, FlagsOf(description)) == Billing
    ensures CorrectPriority(Medium, FlagsOf(description)) == SuggestedPriority(description)
  {
  }

  const ChargedTwice: string := "I was " + "charged" + " twice for my subscription"

  /** The sentence has the billing word "charged". */
  lemma ChargedTwiceLooksBilling()
    ensures LooksBilling(ChargedTwice)
  {
    ChargedOccurs();
    assert Regex.Matches(ChargedTwice, BILLING);
  }

  lemma ChargedOccurs()
    ensures Regex.OccursAt(ChargedTwice, BILLING[1], 6, 13)
  {
    ChargedSpelled();
    ChargedMatches();
    Regex.OccursVerbatim(ChargedTwice, "charged", BILLING[1], 6);
  }

  /** "charged" stands at 6..13, between two blanks. */
  lemma ChargedSpelled()
    ensures ChargedTwice[6..13] == "charged"
    ensures !Text.IsWordChar(ChargedTwice[5]) && !Text.IsWordChar(ChargedTwice[13])
  {
    Middle("I was ", "charged", " twice for my subscription");
  }

  /** The middle part of a three-part concatenation. */
  lemma Middle(a: string, b: string, c: string)
    ensures (a + b + c)[|a|..|a| + |b|] == b
  {
    assert (a + b + c)[|a|..|a| + |b|] == (a + b)[|a|..];
  }

  /** The alternative `charged` matches its own spelling. */
  lemma ChargedMatches()
    ensures Regex.MatchesSpan("charged", BILLING[1], 0, 7)
  {
    Regex.WordSpan("charged", "charged", 0);
  }

  const PlatformDown: string := "I can't log in because the platform is down"

  /** The example of the outage rule in the source: account words lose to
      outage language, whatever the oracle. */
  lemma PlatformDownExample(o: Oracle)
    ensures ClassifyTicket(PlatformDown, o) == Some(OutageAnswer)
  {
    PlatformDownIsOutage();
    PlatformDownNotBlank();
  }

  lemma PlatformDownNotBlank()
    ensures !Text.IsBlank(PlatformDown)
  {
    assert !Text.IsSpace(PlatformDown[0]);
    Blank.BlankIffAllSpace(PlatformDown);
  }

  lemma PlatformDownIsOutage()
    ensures LooksOutageOrDown(PlatformDown)
  {
    IsDownMatches();
    assert PlatformDown[36..43] == "is down";
    Regex.OccursVerbatim(PlatformDown, "is down", OUTAGE_OR_DOWN[4], 36);
  }

  /** The alternative `is\s+down` matches its own plain spelling. */
  lemma IsDownMatches()
    ensures Regex.MatchesSpan("is down", OUTAGE_OR_DOWN[4], 0, 7)
  {
    var t := "is down";
    assert t[0..2] == "is" && t[3..7] == "down";
    Regex.WordSpan(t, "is", 0);
    Regex.WordSpan(t, "down", 3);
    assert Regex.MatchesSpan(t, [Regex.S1][1..], 3, 3);
    assert Regex.AllSpaceBetween(t, 2, 3);
    assert Regex.MatchesSpan(t, [Regex.S1], 2, 3);
    Regex.JoinSpan(t, Regex.W("is"), [Regex.S1], 0, 2, 3);
    Regex.JoinSpan(t, Regex.W("is") + [Regex.S1], Regex.W("down"), 0, 3, 7);
  }
}
