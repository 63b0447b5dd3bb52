# Support-ticket classifier, modelled in Dafny

This project models the classification engine of the support-ticket system,
`classify_ticket` in `backend/tickets/llm_service.py`. It takes a free-text
description and either returns nothing (`None`) or a suggested
`(category, priority)` pair. Categories are billing, technical, account and
general. Priorities are low, medium, high and critical.

The engine has three layers. The model keeps them apart.

- **Keyword rules** (`Regex`, `Keywords`). Seven case-insensitive patterns of
  the form `\b(alt|...)\b` decide seven booleans, collected in
  `Keywords.Flags`. The patterns are technical, account, billing,
  outage/down, and critical/high/low priority. `Regex` gives the patterns a
  declarative meaning (`Matches`) and an executable search (`Search`), and
  proves the two agree. A pattern alternative is a sequence of literal
  characters and `\s*` / `\s+` gaps. The seven constants in `Keywords` list
  the source's alternatives in source order.
- **Oracle reply** (`Reply`). The language-model call is an input, not code.
  It is either "no API key", "the call raised", or a reply text together with
  what `json.loads` made of it. `Reply.Interpret` reduces this to an
  `Engine.Outcome`: `NoKey`, `Raised`, `EmptyText` or the two lower-cased
  label strings.
- **Decision procedure** (`Engine`). `Engine.Decide` is the order of checks:
  blank guard, outage short-circuit, keyword fallback, validation against the
  two enumerations, category correction and priority correction.
  `Tickets.ClassifyTicket` composes the three layers on a description string.

Where the code and its stated intent differ, the model follows the code:

- The docstring says the function returns `None` on any failure (line 103).
  In fact an exception anywhere in the oracle step falls back to the keyword
  answer (lines 171-182). This covers a failed call, undecodable JSON, a
  non-object, and a non-string truthy label.
- An empty reply gives `None` (lines 137-138). So does a label outside the
  enumerations (lines 149-150). Neither gives the keyword answer.
  `Tickets.ClassifyTicket` states exactly when the result is `None`.
- The outage re-checks at lines 114-115, 160-161, 168-169 and 174-175 cannot
  fire, because line 108 has already returned on outage language.
  `Engine.RechecksAreDead` proves that removing them changes nothing.
- "not urgent" is scored critical. See "## Findings".

## Model

| member | source | states |
|---|---|---|
| `Labels.ParseCategory` | backend/tickets/llm_service.py:145-150 | an oracle category is accepted exactly when its lower-cased text is one of the four category names, and the accepted value is the one with that name |
| `Labels.ParsePriority` | backend/tickets/llm_service.py:146-150 | an oracle priority is accepted exactly when its lower-cased text is one of the four priority names, and the accepted value is the one with that name |
| `Labels.CategoryRoundTrip` | backend/tickets/llm_service.py:147-149 | every category's name is accepted and reads back as that category |
| `Labels.PriorityRoundTrip` | backend/tickets/llm_service.py:148-149 | every priority's name is accepted and reads back as that priority |
| `Blank.StripCutsOnlySpace` | backend/tickets/llm_service.py:105 | `strip()` returns a contiguous piece of the input with only whitespace cut off either side, and the piece neither starts nor ends with whitespace |
| `Text.IsBlank` | backend/tickets/llm_service.py:136-137 | `not s or not s.strip()`: blank exactly when stripping leaves nothing, which covers the empty string; used for the description (line 105) and the stripped reply text (lines 136-137) |
| `Blank.BlankIffAllSpace` | backend/tickets/llm_service.py:105 | a description is blank (empty, or empty after stripping) exactly when every character is whitespace |
| `Regex.Ends` | backend/tickets/llm_service.py:39-68 | the computed end positions are exactly those where one pattern alternative, with its `\s*`/`\s+` gaps and case folding, matches from a given start |
| `Regex.Search` | backend/tickets/llm_service.py:75-98 | `pattern.search(text)` succeeds exactly when some alternative matches somewhere with a word boundary on both sides |
| `Keywords.LooksTechnical` | backend/tickets/llm_service.py:84-85 | true exactly when the description is non-empty and the technical pattern occurs in it |
| `Keywords.LooksAccount` | backend/tickets/llm_service.py:88-89 | true exactly when the description is non-empty and the account pattern occurs in it |
| `Keywords.LooksBilling` | backend/tickets/llm_service.py:92-93 | true exactly when the description is non-empty and the billing pattern occurs in it |
| `Keywords.LooksOutageOrDown` | backend/tickets/llm_service.py:96-98 | true exactly when the description is non-empty and the outage/down pattern occurs in it |
| `Keywords.FlagsOf` | backend/tickets/llm_service.py:39-98 | each of the seven flags holds exactly when its pattern occurs; the four category flags are also false for the empty description |
| `Keywords.Tier` | backend/tickets/llm_service.py:75-81 | critical iff a critical cue; high iff a high cue and no critical cue; low iff a low cue and neither of the others; medium iff no cue at all |
| `Keywords.TierIsMostSevereCue` | backend/tickets/llm_service.py:56-81 | the tier is the most severe priority whose cue is present, and medium when none is |
| `Keywords.SuggestedPriority` | backend/tickets/llm_service.py:71-81 | the keyword priority is medium for the empty description; otherwise it is the first tier, in critical, high, low order, whose pattern occurs, and medium when none does |
| `Engine.Fallback` | backend/tickets/llm_service.py:113-122 | the keyword answer: outage gives technical/critical; otherwise account if account words occur, else billing, else technical, else general; the priority is the keyword tier |
| `Engine.FallbackIsFirstCued` | backend/tickets/llm_service.py:116-122 | without outage language the fallback category is the first cued one in the list account, billing, technical, general |
| `Engine.CorrectCategory` | backend/tickets/llm_service.py:152-161 | oracle technical becomes account (account words, no technical words) or billing (billing words, no technical words); oracle general becomes technical iff technical words occur; billing and account are kept; any change lands on a category the keywords support |
| `Engine.CorrectPriority` | backend/tickets/llm_service.py:163-169 | a non-medium oracle priority is kept; an oracle medium is replaced by the keyword tier, which may itself be medium |
| `Engine.Decide` | backend/tickets/llm_service.py:105-182 | the result is absent exactly for a blank description, or (without outage language) an empty reply or an out-of-enumeration label; outage language gives technical/critical; no key or an exception gives the keyword answer; two valid labels give exactly the oracle's category and priority passed through the category and priority corrections, so oracle billing and account and a non-medium oracle priority are kept |
| `Engine.RechecksAreDead` | backend/tickets/llm_service.py:108-175 | the decision procedure without the outage re-checks after line 108 gives the same result on every input |
| `Engine.CriticalFlagOnlyAffectsPriority` | backend/tickets/llm_service.py:105-182 | whether the critical keywords match never decides whether there is an answer or which category it has; it only feeds the priority |
| `Engine.KeywordPathsAgree` | backend/tickets/llm_service.py:111-182 | the no-key path and the exception path give identical results, namely the keyword answer |
| `Engine.OutageDominates` | backend/tickets/llm_service.py:107-109 | with outage language, the answer is technical/critical whatever the other flags and whatever the oracle did |
| `Reply.FieldText` | backend/tickets/llm_service.py:145-146 | a truthy non-string label raises; a missing or falsy one reads as the empty string; a string is lowered character by character, keeping its length |
| `Reply.Interpret` | backend/tickets/llm_service.py:136-150 | no key stays no key; a reply blank after stripping is an empty text; a failed call, a non-object or a non-string truthy label raises; otherwise each label is its text lower-cased character by character, and a missing or falsy label becomes the empty string |
| `Tickets.ClassifyTicket` | backend/tickets/llm_service.py:101-182 | `None` exactly for a blank description, or (no outage words) a blank reply or a readable reply with a label outside its enumeration; outage words give technical/critical |
| `Tickets.BlankIgnoresOracle` | backend/tickets/llm_service.py:105-106 | a whitespace-only description gives `None` and the oracle makes no difference |
| `Tickets.FallbackPaths` | backend/tickets/llm_service.py:110-182 | no key, a failed call, and undecodable or non-object JSON all give the first cued category with the keyword priority |
| `Tickets.KeywordPath` | backend/tickets/llm_service.py:110-182 | for a non-blank description, an oracle step that ends with no key or an exception gives the keyword answer |
| `Tickets.KeywordAnswer` | backend/tickets/llm_service.py:113-122 | without outage words, the keyword answer is the first cued category in account, billing, technical, general order with the keyword priority |
| `Tickets.AnswerIsCorrected` | backend/tickets/llm_service.py:144-170 | a readable reply with two valid labels gives the oracle's category and priority passed through the keyword corrections |
| `Tickets.BillingOnlyCorrections` | backend/tickets/llm_service.py:152-169 | with billing words and no account, technical or outage words, oracle technical becomes billing and oracle medium becomes the keyword priority |
| `Tickets.TechnicalMediumOnBillingOnlyText` | backend/tickets/llm_service.py:144-170 | a reply whose labels lower-case to "technical" and "medium", for a description with billing words and no account, technical or outage words gives billing with the keyword priority |
| `Tickets.ChargedTwiceLooksBilling` | backend/tickets/llm_service.py:47-50 | "I was charged twice for my subscription" contains the billing word `charged` |
| `Tickets.PlatformDownExample` | backend/tickets/llm_service.py:96-109 | "I can't log in because the platform is down" is technical/critical whatever the oracle does |
| `Urgency.NegatedUrgentOccurrence` | backend/tickets/llm_service.py:57-67 | wherever "not urgent" occurs with a blank in between, the low phrase `not\s*urgent` occurs and the critical word `urgent` occurs on its own |
| `Urgency.NegatedUrgentReadsCritical` | backend/tickets/llm_service.py:57-80 | a description saying "not urgent" has a low cue, but its keyword priority is critical |
| `Urgency.MinorCosmeticExample` | backend/tickets/llm_service.py:65-80 | "minor cosmetic issue with the button color, not urgent" has low cues yet is scored critical |
| `Urgency.CriticalSplits` | backend/tickets/llm_service.py:57-60 | the critical pattern occurs exactly when `urgent` or one of its other alternatives occurs |
| `Urgency.CriticalCueCorrected` | backend/tickets/llm_service.py:57-60 | corrected critical cue: a critical alternative other than `urgent` occurs, or `urgent` occurs in a description that never says "not urgent" |
| `Urgency.SuggestedPriorityCorrected` | backend/tickets/llm_service.py:71-81 | the keyword tier with the corrected critical cue, in the same critical, high, low, medium order |
| `Urgency.ClassifyTicketCorrected` | backend/tickets/llm_service.py:101-182 | the classifier with the corrected critical cue gives an answer exactly when the one as written does, with the same category |
| `Urgency.CorrectedClassifierIsConservative` | backend/tickets/llm_service.py:57-182 | for a description that never says "not urgent", the corrected classifier gives exactly the answer as written |
| `Urgency.NegatedUrgentReadsLow` | backend/tickets/llm_service.py:65-80 | with the correction, "not urgent" and no other critical or high cue gives low |
| `Urgency.CorrectionIsConservative` | backend/tickets/llm_service.py:57-81 | with the correction, a description that never says "not urgent" gets the same priority as before |

## Left out

- The language-model call is not modelled (lines 110 and 125-135). That covers the client, model name, temperature, token limit, prompt text (lines 14-35) and the API-key lookup in Django settings. It is an input, `Reply.Oracle`.
- `json.loads` and the fenced-code-block extraction are not modelled (lines 139-144). They are library parsing; `Reply.Decoded` stands for their result.
- The log call in the exception handler is not modelled (line 172). It has no effect on the result.
- `Text.IsWordChar`: `\w` counts ASCII letters, digits and `_`, plus the four letters below. Python also counts every other Unicode letter and digit. So `\b` next to such a character is judged differently.
- `Text.Fold`: case-insensitive matching folds ASCII upper case, plus four letters onto ASCII ones: dotted and dotless i, long s, and the Kelvin sign. No other character is folded. All the patterns are ASCII.
- `Text.LowerAscii`: `str.lower()` is modelled on ASCII letters only. Membership in the enumeration names does not change. Apart from ASCII capitals, the only character whose lower case is an ASCII letter is the Kelvin sign, which lowers to `k`, and no name contains `k`.
- Worked examples are proved only where a pattern occurs. Proving that a given text contains no keyword of a group is beyond what the verifier can compute here. `Tickets.TechnicalMediumOnBillingOnlyText` therefore takes the absent account, technical and outage groups as preconditions on the description, and `Tickets.ChargedTwiceLooksBilling` proves that the sentence has its billing word.
- backend/tickets/views.py, serializers.py, urls.py and admin.py are not modelled. They hold HTTP handlers, ORM queries, statistics and framework configuration. The classify handler only turns `None` into a pair of nulls (views.py lines 94-99).
- A description that is not a string is not modelled; the type is `str`.

## Findings

| source | as written | input that shows it | evidently intended | confidence | as-written member | corrected member |
|---|---|---|---|---|---|---|
| backend/tickets/llm_service.py:58-80 | the critical pattern contains the bare word `urgent` and is tried before the low pattern, which contains `not\s*urgent`; every "not urgent" with a blank therefore scores critical, and the low phrase only ever matters for "noturgent" | "minor cosmetic issue with the button color, not urgent" | "not urgent" is a low cue, not a critical one | high (proved on the model; not executed) | `Urgency.NegatedUrgentReadsCritical` | `Urgency.NegatedUrgentReadsLow` |

`Tickets.ClassifyTicket` keeps the priority as written, because it models the
code. The corrected classifier is `Urgency.ClassifyTicketCorrected`. It uses
the corrected critical cue, `Urgency.CriticalCueCorrected`, through
`Urgency.SuggestedPriorityCorrected`'s flags. The correction can change only
the priority. `Urgency.CorrectionIsConservative` and
`Urgency.CorrectedClassifierIsConservative` prove that it changes nothing for
descriptions that never say "not urgent".
