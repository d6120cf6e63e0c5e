# Meetly.ai meeting analyser, modelled in Dafny

Meetly.ai turns a meeting transcript into a summary, a list of action
points and a list of decisions, using fixed rules rather than a language
model (`analyzeMeetingWithHF` in `src/huggingfaceService.ts`). The
function first checks that an access token is configured. It then scans
the transcript with regular expressions for fragments of several kinds:
two-word capitalised names, numbers, dates, money amounts, projects,
technologies, problem words, solution words, urgency words, sentences led
by a task verb and sentences led by a decision verb. From those fragments
it builds:

- a **name pool**: the distinct names in the order they first occur, at
  most five;
- a **summary**: one sentence for each of projects, problems, solutions,
  numbers and urgency that has a match, in that order, or a fixed generic
  sentence when none does;
- **action points**, by three tiers:
  - up to three task-verb sentences, each cleaned and paired with a pooled
    name and a date;
  - failing those, one item each for project, technology and problem;
  - failing those, two fixed items;
- **decisions**, by the same three tiers:
  - up to three cleaned decision-verb sentences;
  - failing those, one decision each for money, project, technology and
    problem;
  - failing those, two fixed decisions.

The model takes the regular-expression scans as given: an `Extraction`
record holds the match list of each scan. Everything downstream of the
scans is modelled. Each step that the source performs by assignment,
append and push is a method, proved equal to a specification function:

- the summary's conditional `=`/`+=` chain is `BuildSummary`;
- the `forEach` loops are `while` loops (`CollectTaskItems`,
  `CollectDecisions`);
- the tier fallbacks are `BuildActionPoints` and `BuildDecisions`;
- the guard and the assembly of the result are `AnalyzeMeeting`.

Lemmas about those functions state the properties of the output.

Files:

- `wrappers.dfy`: `Option` and `Result`.
- `meeting.dfy`: the extraction record, the result records, and JavaScript's
  `a[i] || fallback`.
- `text.dfy`: the string operations used:
  - `trim`;
  - the keyword-stripping `replace`;
  - capitalisation;
  - `join`;
  - decimal rendering of a number.
- `names.dfy`: the `Set`-based de-duplication and the cap at five.
- `summary.dfy`, `actions.dfy` and `decisions.dfy`: the three outputs.
- `analyzer.dfy`: the whole function.
- `scenarios.dfy`: concrete transcripts.

## Model

The rows list the members that carry contracts. The definitions they
characterise have no rows of their own:

- `Text.Trim` (`trim`), `Text.StripKeyword` (the keyword `replace`) and
  `Text.Capitalize`;
- `Text.Clean` and `Text.CleanAll` (the clean-up of src/huggingfaceService.ts:76-78);
- `Text.Join` (`join(' and ')`) and `Text.NatToString` (`${index + 1}`);
- `NamePool.Distinct` and `NamePool.UniqueNames`;
- `MeetingSummary.Summary`, `ActionPoints.ActionPointsOf` and
  `Decisions.DecisionsOf`;
- `MeetingAnalyzer.HasAccessToken` (`!HF_ACCESS_TOKEN`) and
  `MeetingAnalyzer.AnalysisOf`;
- `MeetingData.ElementOr`, JavaScript's logical-or fallback on an array
  element.

| member | source | states |
|---|---|---|
| Text.TrimSlice | src/huggingfaceService.ts:76 | `trim` yields a slice of the input with only white space cut off either end, and the result neither starts nor ends with white space; a text with no white space at its ends is unchanged |
| Text.SkipSpacesStops | src/huggingfaceService.ts:76 | the `\s+` after a keyword consumes exactly the run of white space that follows it and stops at the end or at the first other character |
| Text.StripKeywordNone | src/huggingfaceService.ts:76 | a text that opens with none of the keywords is left unchanged by the keyword-stripping `replace` |
| Text.StripKeywordAt | src/huggingfaceService.ts:76 | when the first keyword that opens the text (followed by white space, in any ASCII case) is keyword k, that keyword and all the white space after it are removed, and the result is shorter |
| Text.WordsExclusive | src/huggingfaceService.ts:76 | two different lower-case keywords can never both open the same text, so the order of the alternatives does not matter |
| Text.CleanListed | src/huggingfaceService.ts:76-78 | for distinct lower-case keywords, the cleaned fragment is the trimmed fragment with whichever keyword opens it removed, together with the white space after that keyword, and then capitalised; a fragment that opens with no keyword is only trimmed and capitalised |
| Text.CapitalizeProperties | src/huggingfaceService.ts:78 | `Capitalize`, the ASCII-only model of `charAt(0).toUpperCase() + slice(1)`, keeps the length, changes only the first character (to its ASCII upper case), and is idempotent |
| Text.NatToStringRoundTrip | src/huggingfaceService.ts:79 | the decimal text of `index + 1` in `Team Member ${index + 1}` is all digits and reads back as the number |
| Text.NatToStringInjective | src/huggingfaceService.ts:79 | different indices give different placeholder numbers |
| NamePool.DistinctFollowsFirstOccurrence | src/huggingfaceService.ts:27 | `[...new Set(names)]` holds the same names as the input, each once, ordered by first occurrence |
| NamePool.UniqueNamesPool | src/huggingfaceService.ts:26-27 | the name pool is the start of the de-duplicated matches: no duplicates, at most five entries, each one a matched name, in first-occurrence order; any matched name that first occurs no later than a kept name is kept too, so the five kept are the first five distinct names; the pool has five entries when five distinct names exist, and holds every name otherwise |
| MeetingSummary.FirstTwo | src/huggingfaceService.ts:51-57 | `slice(0, 2).join(' and ')` is empty for no items, the item for one, and the first two joined by " and " otherwise |
| MeetingSummary.TextIsConcatenation | src/huggingfaceService.ts:46-61 | the text built by the five conditional appends is the concatenation of one sentence for each kind that has a match, in the fixed order |
| MeetingSummary.SentencePositions | src/huggingfaceService.ts:47-61 | there is one sentence per kind with a match; each sits at the position that the kinds before it leave, and the problem and number sentences take at most the first two items |
| MeetingSummary.SummaryGenericIff | src/huggingfaceService.ts:46-65 | the summary is never empty, and it is the generic sentence exactly when projects, problems, solutions, numbers and urgency all have no match |
| MeetingSummary.SummaryConcatenation | src/huggingfaceService.ts:46-65 | when any of those kinds has a match, the summary is the concatenation of its sentences |
| MeetingSummary.BuildSummary | src/huggingfaceService.ts:46-65 | the `=`/`+=` chain and the `!summary` fallback compute the summary function; the result is non-empty, and it is generic exactly when there is nothing to summarise |
| ActionPoints.TaskItemsAt | src/huggingfaceService.ts:74-83 | item i of the first n verb-led items is the action point of sentence i |
| ActionPoints.TaskTierItems | src/huggingfaceService.ts:74-83 | with task sentences present there are min(3, matches) action points; item i has task sentence i cleaned, person `uniqueNames[i]` or "Team Member i+1", and deadline `dates[i]`, else "ASAP" under urgency, else "Next week" |
| ActionPoints.CategoryTierItems | src/huggingfaceService.ts:86-108 | without task sentences and with some project, technology or problem match, there is one item per matched category, in that order, each with its literal task, person fallback and deadline rule |
| ActionPoints.DefaultTierItems | src/huggingfaceService.ts:111-116 | with none of those matches, the action points are exactly the two fixed items |
| ActionPoints.ActionPointCount | src/huggingfaceService.ts:74-116 | there are always between one and three action points |
| ActionPoints.TaskCleanup | src/huggingfaceService.ts:71-78 | for the ten task verbs: a trimmed task that opens with a verb loses that verb and its white space, one that opens with no verb is kept, and then only the first character is upper-cased |
| ActionPoints.CollectTaskItems | src/huggingfaceService.ts:74-83 | the `forEach` pushes the items of the first three task sentences, in order, and skips the rest |
| ActionPoints.CollectCategoryItems | src/huggingfaceService.ts:86-108 | the second tier's pushes give the project, technology and problem items of the matched categories, in order |
| ActionPoints.BuildActionPoints | src/huggingfaceService.ts:68-116 | the three tiers compute the action-point function and give one to three items |
| Decisions.DecisionTierItems | src/huggingfaceService.ts:125-130 | with decision sentences present, there are min(3, matches) decisions, and decision i is sentence i cleaned |
| Decisions.CategoryTierItems | src/huggingfaceService.ts:133-146 | without decision sentences and with some money, project, technology or problem match, there is one decision per matched category, in that order, each built from the category's first match |
| Decisions.DefaultTierItems | src/huggingfaceService.ts:149-151 | with none of those matches, the decisions are exactly the two fixed ones |
| Decisions.DecisionCount | src/huggingfaceService.ts:125-151 | there are between one and four decisions, and at most three when decision sentences exist |
| Decisions.DecisionCleanup | src/huggingfaceService.ts:122-128 | for the seven decision verbs: a trimmed decision that opens with a verb loses that verb and its white space, one that opens with no verb is kept, and then only the first character is upper-cased |
| Decisions.CollectDecisions | src/huggingfaceService.ts:125-130 | the `forEach` pushes the first three cleaned decision sentences, in order, and skips the rest |
| Decisions.CollectCategoryDecisions | src/huggingfaceService.ts:133-146 | the second tier's pushes give the money, project, technology and problem decisions of the matched categories, in order |
| Decisions.BuildDecisions | src/huggingfaceService.ts:119-151 | the three tiers compute the decision function and give one to four decisions |
| MeetingAnalyzer.AnalysisShape | src/huggingfaceService.ts:46-159 | every analysis has a non-empty summary, generic exactly when nothing was summarisable, one to three action points and one to four decisions |
| MeetingAnalyzer.TaskPersons | src/huggingfaceService.ts:27-79 | the person of verb-led action point i is the i-th distinct name of the transcript (by first occurrence), or "Team Member i+1" when there are not that many distinct names or that name is empty |
| MeetingAnalyzer.AnalyzeMeeting | src/huggingfaceService.ts:11-160 | a missing or empty token fails with the fixed message, whatever the transcript holds; otherwise the result is always the analysis of the fragments, with the bounds above |
| Scenarios.EmptyTranscript | src/huggingfaceService.ts:63-151 | a transcript with no matches gets the generic summary, the two fixed action points with their fixed people, and the two fixed decisions |
| Scenarios.FalconActionPoints | src/huggingfaceService.ts:74-83 | in the sample transcript, the verb-led sentence "complete the onboarding doc by Jan 5th." becomes "The onboarding doc by Jan 5th.", assigned to the first name found, with deadline "Jan 5th" |
| Scenarios.FalconDecisions | src/huggingfaceService.ts:125-130 | in the sample transcript, the decision sentence becomes "The budget for Project Falcon." |
| Scenarios.FalconSummary | src/huggingfaceService.ts:47-49 | in the sample transcript, the summary is the project sentence alone |
| Scenarios.MissingToken | src/huggingfaceService.ts:12-16 | an absent token and an empty token both give the missing-token failure |

## Left out

- The regular-expression scans (src/huggingfaceService.ts:26, 30-43, 72, 123) are not modelled as a regex engine. Their match lists are the inputs of the model.
- The `percentages` scan (src/huggingfaceService.ts:32) is computed but never used, so the extraction record has no field for it.
- The environment lookup of the token (src/huggingfaceService.ts:12) becomes an `Option<string>` parameter. JavaScript's `!token` is modelled as "absent or the empty string".
- The `console.log` calls, the two-second `setTimeout` delay and the async/Promise machinery (src/huggingfaceService.ts:19-23, 153) are left out: they are output, timing and control flow with no effect on the result. The thrown error becomes a `Failure` result. The model returns this failure before it looks at the fragments, which corresponds to failing before the delay.
- Text.Capitalize: upper-cases ASCII letters only, whereas `toUpperCase` maps the full Unicode range. A string is a sequence of Unicode scalar values, not UTF-16 code units, so `charAt(0)` on a surrogate pair is not modelled.
- Text.EqualsIgnoreCase: keyword matching folds the case of ASCII letters only. A JavaScript `i` regular expression without the `u` flag never folds a non-ASCII character onto an ASCII one, so for the ASCII keywords this is the same comparison.
- src/App.tsx, src/main.tsx and tailwind.config.js are user interface, bootstrapping and styling with no analysis logic, and they are not part of this model.

## Notes on the behaviour

- A single task sentence gives a single action point, and a single
  decision sentence gives a single decision (`ActionPoints.TaskTierItems`,
  `Decisions.DecisionTierItems`).
- In the sample transcript "We decided to approve the budget for Project
  Falcon. John Smith will complete the onboarding doc by Jan 5th.", the name
  scan finds "Project Falcon" before "John Smith". The action point goes
  to "Project Falcon" (`Scenarios.FalconActionPoints`).
- The cleaned decision loses its leading verb: "The budget for Project
  Falcon." (`Scenarios.FalconDecisions`).
