/** The keyword rule layer of backend/tickets/llm_service.py: seven
    case-insensitive patterns, the four "looks like" predicates and the
    tiered keyword priority. */
module Keywords {
  import opened Regex
  import opened Labels

  const TECHNICAL: Pattern := [
    W("api"), W("webhook"), W("endpoint"), W("500"), W("502"), W("503"),
    W("server") + [S0] + W("error"), W("integration"), W("bug"), W("crash"),
    W("timeout"), W("logs")]

  const ACCOUNT: Pattern := [
    W("login"), W("log") + [S0] + W("in"), W("password"),
    W("reset") + [S0] + W("password"), W("unlock"), W("account"),
    W("permission"), W("profile"), W("access"), W("locked") + [S0] + W("out")]

  const BILLING: Pattern := [
    W("charge"), W("charged"), W("refund"), W("invoice"), W("payment"),
    W("subscription"), W("billed"), W("billing"),
    W("duplicate") + [S0] + W("charge")]

  const OUTAGE_OR_DOWN: Pattern := [
    W("outage"), W("system") + [S0] + W("down"), W("platform") + [S0] + W("down"),
    W("been") + [S1] + W("down"), W("is") + [S1] + W("down"),
    W("full") + [S1] + W("outage"), W("data") + [S0] + W("loss"), W("breach")]

  const CRITICAL_PRIORITY: Pattern := [
    W("outage"), W("down") + [S0] + W("for"), W("system") + [S0] + W("down"),
    W("platform") + [S0] + W("down"), W("been") + [S1] + W("down"),
    W("full") + [S1] + W("outage"), W("data") + [S0] + W("loss"), W("breach"),
    W("security") + [S0] + W("incident"), W("urgent"), W("restore"), W("backup")]

  const HIGH_PRIORITY: Pattern := [
    W("no") + [S0] + W("workaround"), W("blocking"), W("deadline"),
    W("can't") + [S0] + W("access"), W("cannot") + [S0] + W("access"),
    W("as") + [S0] + W("soon") + [S0] + W("as") + [S0] + W("possible"),
    W("critical") + [S0] + W("deadline")]

  const LOW_PRIORITY: Pattern := [
    W("minor"), W("cosmetic"), W("not") + [S0] + W("urgent"),
    W("feature") + [S0] + W("request"), W("would") + [S0] + W("be") + [S0] + W("nice"),
    W("small") + [S0] + W("issue")]

  function LooksTechnical(d: string): (b: bool)
    ensures b <==> d != [] && Matches(d, TECHNICAL)
  {
    d != [] && Search(d, TECHNICAL)
  }

  function LooksAccount(d: string): (b: bool)
    ensures b <==> d != [] && Matches(d, ACCOUNT)
  {
    d != [] && Search(d, ACCOUNT)
  }

  function LooksBilling(d: string): (b: bool)
    ensures b <==> d != [] && Matches(d, BILLING)
  {
    d != [] && Search(d, BILLING)
  }

  function LooksOutageOrDown(d: string): (b: bool)
    ensures b <==> d != [] && Matches(d, OUTAGE_OR_DOWN)
  {
    d != [] && Search(d, OUTAGE_OR_DOWN)
  }

  /** What the keyword patterns say about one description. */
  datatype Flags = Flags(tech: bool, acct: bool, bill: bool, outage: bool,
                         crit: bool, high: bool, low: bool)

  function FlagsOf(d: string): (f: Flags)
    ensures f.tech <==> d != [] && Matches(d, TECHNICAL)
    ensures f.acct <==> d != [] && Matches(d, ACCOUNT)
    ensures f.bill <==> d != [] && Matches(d, BILLING)
    ensures f.outage <==> d != [] && Matches(d, OUTAGE_OR_DOWN)
    ensures f.crit <==> Matches(d, CRITICAL_PRIORITY)
    ensures f.high <==> Matches(d, HIGH_PRIORITY)
    ensures f.low <==> Matches(d, LOW_PRIORITY)
  {
    Flags(LooksTechnical(d), LooksAccount(d), LooksBilling(d), LooksOutageOrDown(d),
          Search(d, CRITICAL_PRIORITY), Search(d, HIGH_PRIORITY), Search(d, LOW_PRIORITY))
  }

  /** Critical cues first, then high, then low; medium when none is present. */
  function Tier(f: Flags): (p: Priority)
    ensures p == Critical <==> f.crit
    ensures p == High <==> !f.crit && f.high
    ensures p == Low <==> !f.crit && !f.high && f.low
    ensures p == Medium <==> !f.crit && !f.high && !f.low
  {
    if f.crit then Critical
    else if f.high then High
    else if f.low then Low
    else Medium
  }

  /** The priorities whose keyword cues are present. */
  function Cues(f: Flags): set<Priority>
  {
    (if f.crit then {Critical} else {}) + (if f.high then {High} else {})
    + (if f.low then {Low} else {})
  }

  /** The tier is the most severe cue present, medium when there is none. */
  lemma TierIsMostSevereCue(f: Flags)
    ensures Cues(f) == {} ==> Tier(f) == Medium
    ensures Cues(f) != {} ==> Tier(f) in Cues(f)
    ensures forall p :: p in Cues(f) ==> Severity(p) <= Severity(Tier(f))
  {
  }

  /** `_suggested_priority_from_keywords`. */
  function SuggestedPriority(d: string): (p: Priority)
    ensures p == Critical <==> d != [] && Matches(d, CRITICAL_PRIORITY)
    ensures p == High <==> d != [] && !Matches(d, CRITICAL_PRIORITY) && Matches(d, HIGH_PRIORITY)
    ensures p == Low <==> d != [] && !Matches(d, CRITICAL_PRIORITY) && !Matches(d, HIGH_PRIORITY)
                          && Matches(d, LOW_PRIORITY)
    ensures p == Medium <==> d == [] || (!Matches(d, CRITICAL_PRIORITY) && !Matches(d, HIGH_PRIORITY)
                                         && !Matches(d, LOW_PRIORITY))
  {
    if d == [] then Medium else Tier(FlagsOf(d))
  }
}
