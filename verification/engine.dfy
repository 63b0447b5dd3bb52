/** The decision procedure of `classify_ticket` in
    backend/tickets/llm_service.py, over what the keyword patterns say
    (`Flags`) and what became of the oracle call (`Outcome`). */
module Engine {
  import opened Wrappers
  import opened Labels
  import opened Keywords

  datatype Classification = Classification(category: Category, priority: Priority)

  /** What the oracle step produced before validation: no API key configured,
      an exception somewhere in the call or in decoding its reply, a reply
      that is blank after stripping, or the two lower-cased label strings. */
  datatype Outcome = NoKey | Raised | EmptyText | Parsed(category: string, priority: string)

  const OutageAnswer: Classification := Classification(Technical, Critical)

  /** Whether the keywords point at category `c`; general needs no cue. */
  predicate Cue(f: Flags, c: Category)
  {
    match c
    case Account => f.acct
    case Billing => f.bill
    case Technical => f.tech
    case General => true
  }

  /** The order in which the keyword fallback tries the categories. */
  const FallbackOrder: seq<Category> := [Account, Billing, Technical, General]

  /** The first category of `order` whose cue holds, general if none does. */
  function FirstCued(f: Flags, order: seq<Category>): Category
  {
    if order == [] then General
    else if Cue(f, order[0]) then order[0]
    else FirstCued(f, order[1..])
  }

  /** The keyword-only answer, as the no-key branch and the exception
      handler both compute it (outage re-check included). */
  function Fallback(f: Flags): (c: Classification)
    ensures f.outage ==> c == OutageAnswer
    ensures !f.outage ==> c.priority == Tier(f)
    ensures c.category == Account <==> !f.outage && f.acct
    ensures c.category == Billing <==> !f.outage && !f.acct && f.bill
    ensures c.category == Technical <==> f.outage || (!f.acct && !f.bill && f.tech)
    ensures c.category == General <==> !f.outage && !f.acct && !f.bill && !f.tech
  {
    var pri := Tier(f);
    if f.outage then OutageAnswer
    else if f.acct then Classification(Account, pri)
    else if f.bill then Classification(Billing, pri)
    else if f.tech then Classification(Technical, pri)
    else Classification(General, pri)
  }

  /** Without outage language the fallback category is the first cued one in
      account, billing, technical, general order. */
  lemma FallbackIsFirstCued(f: Flags)
    requires !f.outage
    ensures Fallback(f).category == FirstCued(f, FallbackOrder)
    ensures Cue(f, Fallback(f).category)
  {
    var tail := [Technical, General];
    assert tail[1..] == [General];
    assert FirstCued(f, tail) == if f.tech then Technical else General;
    assert FallbackOrder[1..][1..] == tail;
  }

  /** The correction of a valid oracle category (lines 152-161). */
  function CorrectCategory(oracle: Category, f: Flags): (c: Category)
    ensures f.outage ==> c == Technical
    ensures !f.outage && (oracle == Billing || oracle == Account) ==> c == oracle
    ensures !f.outage && oracle == General ==> (c == Technical <==> f.tech) && (c != Technical ==> c == General)
    ensures !f.outage && oracle == Technical ==>
              && (c == Account <==> f.acct && !f.tech)
              && (c == Billing <==> !f.acct && f.bill && !f.tech)
              && (c == Technical <==> f.tech || (!f.acct && !f.bill))
    ensures c != oracle ==> Cue(f, c) || (f.outage && c == Technical)
  {
    var c :=
      if oracle == Technical then
        if f.acct && !f.tech then Account
        else if f.bill && !f.tech then Billing
        else oracle
      else if oracle == General && f.tech then Technical
      else oracle;
    if f.outage then Technical else c
  }

  /** The correction of a valid oracle priority (lines 163-169). */
  function CorrectPriority(oracle: Priority, f: Flags): (p: Priority)
    ensures f.outage ==> p == Critical
    ensures !f.outage && oracle != Medium ==> p == oracle
    ensures !f.outage && oracle == Medium ==> p == Tier(f)
  {
    var p :=
      if oracle == Medium then
        var keyword := Tier(f);
        if keyword != Medium then keyword else oracle
      else oracle;
    if f.outage then Critical else p
  }

  /** `classify_ticket` once the description has been reduced to whether it
      is blank and what its keywords say. */
  function Decide(blank: bool, f: Flags, o: Outcome): (r: Option<Classification>)
    ensures r == None <==>
              || blank
              || (!f.outage && o == EmptyText)
              || (!f.outage && o.Parsed? && (o.category !in CategoryNames || o.priority !in PriorityNames))
    ensures !blank && f.outage ==> r == Some(OutageAnswer)
    ensures !blank && (o == NoKey || o == Raised) ==> r == Some(Fallback(f))
    ensures !blank && o.Parsed? && o.category in CategoryNames && o.priority in PriorityNames ==>
              r == Some(Classification(CorrectCategory(ParseCategory(o.category).value, f),
                                       CorrectPriority(ParsePriority(o.priority).value, f)))
  {
    if blank then None
    else if f.outage then Some(OutageAnswer)
    else match o
      case NoKey => Some(Fallback(f))
      case Raised => Some(Fallback(f))
      case EmptyText => None
      case Parsed(cat, pri) =>
        var c := ParseCategory(cat);
        var p := ParsePriority(pri);
        if c.None? || p.None? then None
        else Some(Classification(CorrectCategory(c.value, f), CorrectPriority(p.value, f)))
  }

  /** `classify_ticket` with the outage re-checks after the short-circuit
      removed. */
  function DecideWithoutRechecks(blank: bool, f: Flags, o: Outcome): Option<Classification>
  {
    if blank then None
    else if f.outage then Some(OutageAnswer)
    else match o
      case EmptyText => None
      case Parsed(cat, pri) =>
        var c := ParseCategory(cat);
        var p := ParsePriority(pri);
        if c.None? || p.None? then None
        else
          var category :=
            if c.value == Technical && f.acct && !f.tech then Account
            else if c.value == Technical && f.bill && !f.tech then Billing
            else if c.value == General && f.tech then Technical
            else c.value;
          var priority := if p.value == Medium then Tier(f) else p.value;
          Some(Classification(category, priority))
      case _ =>
        var category := if f.acct then Account else if f.bill then Billing
                        else if f.tech then Technical else General;
        Some(Classification(category, Tier(f)))
  }

  /** The outage re-checks can never fire: removing them changes nothing. */
  lemma RechecksAreDead(blank: bool, f: Flags, o: Outcome)
    ensures Decide(blank, f, o) == DecideWithoutRechecks(blank, f, o)
  {
  }

  /** The critical flag only ever matters for the priority: whether there is
      an answer, and its category, do not depend on it. */
  lemma CriticalFlagOnlyAffectsPriority(blank: bool, f: Flags, o: Outcome, crit: bool)
    ensures Decide(blank, f.(crit := crit), o).None? <==> Decide(blank, f, o).None?
    ensures Decide(blank, f, o).Some? ==>
              Decide(blank, f.(crit := crit), o).value.category == Decide(blank, f, o).value.category
  {
  }

  /** The no-key path and the exception path give the same answer. */
  lemma KeywordPathsAgree(blank: bool, f: Flags)
    ensures Decide(blank, f, NoKey) == Decide(blank, f, Raised)
    ensures !blank ==> Decide(blank, f, NoKey) == Some(Fallback(f))
  {
  }

  /** Outage language decides the answer whatever the oracle did and
      whatever else the keywords say. */
  lemma OutageDominates(f: Flags, g: Flags, o: Outcome, o': Outcome)
    requires f.outage && g.outage
    ensures Decide(false, f, o) == Decide(false, g, o') == Some(OutageAnswer)
  {
  }
}
