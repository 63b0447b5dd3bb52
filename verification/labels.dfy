/** The two enumerations of the classifier and their wire names, as checked
    against the sets of valid names in backend/tickets/llm_service.py. */
module Labels {
  import opened Wrappers

  datatype Category = Billing | Technical | Account | General

  /** Listed in increasing severity. */
  datatype Priority = Low | Medium | High | Critical

  /** The names an oracle answer must use after lower-casing. */
  const CategoryNames: set<string> := {"billing", "technical", "account", "general"}
  const PriorityNames: set<string> := {"low", "medium", "high", "critical"}

  function CategoryName(c: Category): (s: string)
    ensures s in CategoryNames
  {
    match c
    case Billing => "billing"
    case Technical => "technical"
    case Account => "account"
    case General => "general"
  }

  function PriorityName(p: Priority): (s: string)
    ensures s in PriorityNames
  {
    match p
    case Low => "low"
    case Medium => "medium"
    case High => "high"
    case Critical => "critical"
  }

  /** Validation of an oracle category: `None` exactly for names outside the enumeration. */
  function ParseCategory(s: string): (r: Option<Category>)
    ensures r.Some? <==> s in CategoryNames
    ensures r.Some? ==> CategoryName(r.value) == s
  {
    if s == "billing" then Some(Billing)
    else if s == "technical" then Some(Technical)
    else if s == "account" then Some(Account)
    else if s == "general" then Some(General)
    else None
  }

  /** Validation of an oracle priority: `None` exactly for names outside the enumeration. */
  function ParsePriority(s: string): (r: Option<Priority>)
    ensures r.Some? <==> s in PriorityNames
    ensures r.Some? ==> PriorityName(r.value) == s
  {
    if s == "low" then Some(Low)
    else if s == "medium" then Some(Medium)
    else if s == "high" then Some(High)
    else if s == "critical" then Some(Critical)
    else None
  }

  /** Reading back a written name gives the value that was written. */
  lemma CategoryRoundTrip(c: Category)
    ensures ParseCategory(CategoryName(c)) == Some(c)
  {
  }

  lemma PriorityRoundTrip(p: Priority)
    ensures ParsePriority(PriorityName(p)) == Some(p)
  {
  }

  /** Position in the severity order low < medium < high < critical. */
  function Severity(p: Priority): (n: nat)
    ensures n < 4
  {
    match p
    case Low => 0
    case Medium => 1
    case High => 2
    case Critical => 3
  }
}
