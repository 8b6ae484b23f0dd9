# Document processing pipeline, modelled in Dafny

This project models the core of the `document_processing` package. That package
takes a document's text through five stages in a fixed order:

1. classify the document type;
2. extract dates, amounts, references and parties;
3. list action items;
4. write an executive summary;
5. assess risks.

A session service records every stage result. A memory bank files one pattern for
each processed invoice or contract; the patterns of other document types are
dropped. An evaluator keeps running metrics over the results.

The files follow the package's modules:

| file | models |
|---|---|
| `text.dfy` | the string operations the source relies on: `str.lower`, `str.split()`, `str.split("\n")`, `" ".join`, `str.strip`, substring `in`, slicing to a prefix |
| `models.dfy` | the record types of `models.py` |
| `tools.py` → `tools.dfy` | the regular-expression scanners and the party extractor |
| `agents.py` → `agents.dfy` | the five stage agents |
| `session.py` → `session.dfy` | `InMemorySessionService` and `MemoryBank` |
| `orchestrator.py` → `orchestrator.dfy` | `DocumentProcessingOrchestrator` |
| `evaluation.py` → `evaluation.dfy` | `AgentEvaluator` |

How the source's constructs are modelled:

- **Regular expressions.** Each regular expression is a case of `Tools.Regex`.
  - `Tools.MatchAt` gives the outcome of Python's backtracking matcher for that fixed pattern at one position.
  - `Tools.FindAll` repeats `MatchAt` the way `re.findall` does: leftmost match first, no overlaps, and the group when the pattern has one.
- **Loops become methods.** `extract_dates`, `extract_references` and `extract_parties` build their lists in loops, so they are methods with loop invariants.
  - `ExtractDates` and `ExtractReferences` are proved equal to declarative specification functions.
  - `ExtractParties` is proved to return the distinct party candidates: the same members, no duplicates, and as many as there are distinct candidates. Their order is left open.
- **Straight-line list building.** `identify_actions` and `assess_risks` build their lists with `append` and `insert` calls and no loop. Their methods `IdentifyActions` and `AssessRisks` are proved equal to the specification functions `ExpectedActions` and `ExpectedRisks`, and the properties are proved about those.
- **Objects with mutable state become classes.** The session service, the memory bank, the orchestrator and the evaluator update their fields in place, so they are classes with `modifies` clauses.
  - The orchestrator's extraction agent shares the orchestrator's session service. This is how the extraction stage reads the classification the orchestrator wrote.

Two behaviours of the code are easy to misread:

- **`extract_parties` does not stop at the first keyword of a line.** Its `break` only leaves the word loop. Every keyword that occurs in a line adds its own candidate: "Acme Corporation" yields one candidate for "Corp" and one for "Corporation", and they are equal.
- **The evaluator's time figure is not a running mean.** It is the mean of the previous figure and the new time (`Evaluation.AverageOfEqualTimes`, `Evaluation.TwoEqualTimes`).

Two behaviours of the scanners are proved as worked examples:

- The cents group of the amount pattern needs exactly two digits: `"$1,250.5"` yields `"$1,250"`.
- Under case-insensitive matching, `REF` already matches the start of the word "Reference". So that word yields the reference `REF-erence`.

## Model

| member | source | states |
|---|---|---|
| Text.Lower | document_processing/agents.py:29 | lower-casing keeps the length and lower-cases each ASCII letter in place |
| Text.Words | document_processing/tools.py:68 | `str.split()` yields only non-empty runs of non-space characters |
| Text.SplitOn | document_processing/tools.py:62 | `split("\n")` yields at least one piece, and no piece holds the separator |
| Text.JoinSplitOn | document_processing/tools.py:62 | splitting on a character loses nothing: joining the pieces with it gives the text back |
| Text.ContainedInSomePiece | document_processing/tools.py:62-67 | a keyword without a newline that occurs in the text occurs in one of its lines |
| Text.ContainedInSomeWord | document_processing/tools.py:67-70 | a keyword without whitespace that occurs in a line occurs in one of the line's words, so the word loop always finds one |
| Text.StripJoinedWords | document_processing/tools.py:71-72 | stripping a window of words joined by single spaces changes nothing |
| Tools.MatchAt | document_processing/tools.py:21-45 | a match found at a position ends after it and inside the text |
| Tools.MatchAtReports | document_processing/tools.py:21-45 | what findall reports for a match is non-empty and ends where the match ends: the whole match, or the captured group for the three reference patterns |
| Tools.FindFromFirst | document_processing/tools.py:27 | `re.findall` reports the match at the first position where the pattern matches, then resumes scanning at its end |
| Tools.FindFromReports | document_processing/tools.py:27 | if the pattern matches at some position, `re.findall` reports something |
| Tools.FindFromShape | document_processing/tools.py:20-50 | everything `re.findall` returns for a pattern has that pattern's shape (digits, separators, month names, currency, code characters) |
| Tools.ExtractDates | document_processing/tools.py:18-29 | the dates are the ISO matches, then the slash matches, then the month-name matches, each group in text order |
| Tools.DatesShape | document_processing/tools.py:20-24 | ISO dates fit DDDD-DD-DD; slash dates fit DD/DD/DDDD; month dates are a month prefix, letters, a space, one or two digits, an optional comma, a space and four digits |
| Tools.IsoDateFound | document_processing/tools.py:21-27 | ten characters fitting DDDD-DD-DD are matched whole where they start, so `extract_dates` reports a date |
| Tools.SlashDateFound | document_processing/tools.py:22-27 | ten characters fitting DD/DD/DDDD are matched whole where they start, so `extract_dates` reports a date |
| Tools.MonthDateFound | document_processing/tools.py:23-27 | a month-name date in the text is matched exactly, to its year, where it starts, so `extract_dates` reports a date |
| Tools.ExtractAmounts | document_processing/tools.py:32-37 | every amount is `$`, then digits and commas, then optionally `.` and exactly two digits |
| Tools.AmountFound | document_processing/tools.py:34-35 | a `$` followed by a digit is matched, so `extract_amounts` reports an amount |
| Tools.ExtractReferences | document_processing/tools.py:40-52 | the references are the invoice codes, then the purchase-order codes, then the generic codes, all prefixed |
| Tools.CapturedCodes | document_processing/tools.py:43-45 | invoice and purchase-order groups are digit runs; generic groups are runs of letters, digits and hyphens |
| Tools.ReferencesShape | document_processing/tools.py:42-50 | every reference is `"REF-"` and a non-empty code; invoice and purchase-order codes are all digits |
| Tools.InvoiceRefFound | document_processing/tools.py:43-50 | "inv" in any case followed by a digit is matched, so `extract_references` reports a reference |
| Tools.PurchaseOrderRefFound | document_processing/tools.py:44-50 | "po" in any case followed by a digit is matched, so `extract_references` reports a reference |
| Tools.GenericRefFound | document_processing/tools.py:45-50 | "ref" in any case followed by a letter, digit or hyphen is matched, so `extract_references` reports a reference |
| Tools.FirstWordWith | document_processing/tools.py:69-73 | the first word holding the keyword: no earlier word holds it |
| Tools.WindowStart | document_processing/tools.py:71 | `max(0, i - 3)`: the window ending at word i spans min(i + 1, 4) words |
| Tools.KeywordParty | document_processing/tools.py:68-73 | the word loop with its break yields exactly the one-keyword candidate of the line |
| Tools.LineParties | document_processing/tools.py:66-73 | the keyword loop yields the candidates of a line, in keyword order |
| Tools.Distinct | document_processing/tools.py:76 | `list(set(...))`: no duplicates, the same members, as many as there are distinct candidates |
| Tools.ExtractParties | document_processing/tools.py:59-76 | the parties have no duplicates and are exactly the distinct candidates; each is a keyword window on some line |
| Tools.KeywordCandidateSpec | document_processing/tools.py:67-73 | a keyword yields one candidate for a line exactly when it occurs in the line, and that candidate is its window |
| Tools.LineCandidatesSpec | document_processing/tools.py:66-73 | a line yields one candidate per keyword that occurs in it, each the window of one of them |
| Tools.LinesCandidatesMembers | document_processing/tools.py:65-73 | the candidates of the text are exactly those of its lines |
| Tools.PartyCandidatesShape | document_processing/tools.py:59-73 | every candidate is the window of a party keyword in some line |
| Tools.KeywordGivesParty | document_processing/tools.py:61-72 | if a party keyword occurs anywhere, there is a candidate |
| Tools.NoKeywordNoParties | document_processing/tools.py:61-67 | with no party keyword in the text, there are no candidates |
| Tools.PartiesIffKeyword | document_processing/tools.py:59-76 | parties are found exactly when some party keyword occurs in the text |
| Tools.IsoDateExample | document_processing/tools.py:21 | `2025-11-25` is found as one ISO date |
| Tools.AmountWithCentsExample | document_processing/tools.py:34 | `$1,250.50` is found whole |
| Tools.ShortFractionExample | document_processing/tools.py:34 | `$1,250.5` yields `$1,250`: the cents group needs two digits |
| Tools.ReferenceWordExample | document_processing/tools.py:45 | in "Reference" the generic pattern matches `REF` and captures `erence` |
| Agents.FirstRule | document_processing/agents.py:31-45 | the first keyword group, in table order, with a keyword in the text; no earlier group has one |
| Agents.Classify | document_processing/agents.py:25-48 | the result is one of the five (type, confidence) pairs; Invoice exactly when an invoice keyword occurs; General Document exactly when no group's keyword occurs |
| Agents.ClassifyFirstRule | document_processing/agents.py:31-45 | the classification is that of the first matching group, or the General Document fallback |
| Agents.InvoiceBeforeContract | document_processing/agents.py:31-36 | a text mentioning "invoice" is an Invoice at 0.95, whatever else it mentions |
| Agents.StoredDocType | document_processing/agents.py:74 | `doc_type or "Unknown"`: never empty; the stored non-empty string, otherwise "Unknown" |
| Agents.StoredConfidence | document_processing/agents.py:75 | `confidence or 0.0`: the stored number, otherwise 0 |
| Agents.ExtractionAgent.Extract | document_processing/agents.py:61-89 | type and confidence are read from the session (`or "Unknown"`, `or 0.0`); dates, amounts and references are the first five found; parties are at most five distinct candidates, each a keyword window |
| Agents.IdentifyActions | document_processing/agents.py:99-159 | the list equals the specification: the urgent item first when the text is urgent, then the type's items, then the archive item |
| Agents.UrgentActions | document_processing/agents.py:140-148 | Management is assigned an item exactly when the text says "urgent" or "immediate", and that item comes first |
| Agents.HighCount | document_processing/agents.py:187 | the count of High items is at most the number of items, and 0 exactly when none is High |
| Agents.HighCountAppend | document_processing/agents.py:187 | the High count of a concatenation is the sum of the counts |
| Agents.HighCountOfActions | document_processing/agents.py:106-148 | the summary's high-priority count is 1 for urgency, plus 1 for an invoice with dates, plus 1 for a contract |
| Agents.NatToString | document_processing/agents.py:189 | the decimal rendering of the count is non-empty digits, has no leading zero, and reads back as the count |
| Agents.Summary | document_processing/agents.py:169-205 | the summary starts with "This " and the lower-cased type, and ends with the routing sentence |
| Agents.SummaryMentions | document_processing/agents.py:175-196 | the party clause (one or two parties), the first date and the high-priority count appear in the summary |
| Agents.SummaryMentionsAmounts | document_processing/agents.py:182-185 | the only amount, or the first two joined by ", ", appear in the financial sentence of the summary |
| Agents.FinancialClauseText | document_processing/agents.py:182-185 | the financial sentence names the only amount, or the first two joined by ", " |
| Agents.SummaryWithoutHigh | document_processing/agents.py:187-202 | with no High item the summary is the one for no action items: the count clause is absent |
| Agents.ParseAll | document_processing/agents.py:224-226 | all amounts parse, or the list comprehension fails; parsed values are in order |
| Agents.Cleaned | document_processing/agents.py:225 | the cleaned amount holds no `$` and no `,` |
| Agents.CleanedConcat | document_processing/agents.py:225 | cleaning a concatenation cleans each part |
| Agents.CleanedKeeps | document_processing/agents.py:225 | cleaning leaves a text without `$` and `,` unchanged |
| Agents.ParseDecimal | document_processing/agents.py:225 | a parsed number is never negative |
| Agents.DigitsParse | document_processing/agents.py:225 | a run of digits parses to the number it writes in decimal |
| Agents.ParseAmount | document_processing/agents.py:225 | a parsed amount is never negative |
| Agents.DollarDigitsValue | document_processing/agents.py:225 | `$` and digits parse to the value of the digits |
| Agents.DollarCentsValue | document_processing/agents.py:225 | `$`, digits, `.` and two digits parse to the whole part plus the cents over 100 |
| Agents.MaxOf | document_processing/agents.py:224 | the maximum is one of the values and no value exceeds it |
| Agents.AmountRisks | document_processing/agents.py:222-245 | the amount rule adds nothing, the High-value risk, or the commitment risk |
| Agents.AmountThresholds | document_processing/agents.py:228-245 | High exactly when some amount exceeds 50000; Medium exactly when none does and some exceeds 10000; nothing when a parse fails |
| Agents.AssessRisks | document_processing/agents.py:215-284 | the list equals the specification: the amount, contract, deadline and vendor rules in order, or the standard risk alone |
| Agents.RisksNonEmpty | document_processing/agents.py:274-281 | there are one to four risks, and the standard Low risk only ever appears alone |
| Agents.LowOnlyWhenUnflagged | document_processing/agents.py:228-281 | every risk is Low exactly when no rule fired |
| Agents.ScannedAmountParses | document_processing/agents.py:223-245 | an amount the scanner finds fails to parse exactly when it holds no digit, as in `$,` |
| Session.UpdateEntry | document_processing/session.py:44-50 | the history record names the key and keeps the rendering cut to 100 characters |
| Session.SessionService.constructor | document_processing/session.py:19-20 | the service starts with no sessions |
| Session.SessionService.CreateSession | document_processing/session.py:23-32 | the id now maps to a fresh session with empty state and history, replacing any old one; other ids are untouched |
| Session.SessionService.GetSession | document_processing/session.py:34-36 | a session exactly when the id is present |
| Session.SessionService.UpdateState | document_processing/session.py:38-51 | unknown id: no change; otherwise the key reads back the value, other keys and sessions are unchanged, and history grows by one |
| Session.SessionService.GetState | document_processing/session.py:53-56 | a value exactly when both the session and the key exist |
| Session.MemoryBank.constructor | document_processing/session.py:64-70 | the bank starts with the four empty lists |
| Session.MemoryBank.StorePattern | document_processing/session.py:73-78 | the pattern is appended under an existing key and dropped otherwise; the key set never changes |
| Session.MemoryBank.RetrievePatterns | document_processing/session.py:80-83 | the list under the type's key, or the empty list |
| Session.KeptTypes | document_processing/session.py:65-77 | a type has a pattern list exactly when it lowers to "invoice" or "contract" |
| Orchestrator.MaxLevel | document_processing/orchestrator.py:76-79 | the most severe level is one of the levels, with the highest rank |
| Orchestrator.SessionIdInjective | document_processing/orchestrator.py:48 | different document ids give different session ids |
| Orchestrator.RunPattern | document_processing/orchestrator.py:71-81 | the filed pattern counts dates plus amounts and the actions; its level is some risk's level, ranked at least as high as every risk's |
| Orchestrator.RunSessionShape | document_processing/orchestrator.py:48-67 | a run leaves the session with exactly the six stage keys, and six history entries in stage order |
| Orchestrator.RunPatternBounds | document_processing/orchestrator.py:71-81 | the filed pattern counts at most ten entities, and its level is Low exactly when every risk is Low |
| Orchestrator.KeptDocTypes | document_processing/orchestrator.py:71-72 | only Invoice and Contract runs file a pattern; Report, Proposal and General Document patterns are dropped |
| Orchestrator.DocumentOrchestrator.constructor | document_processing/orchestrator.py:27-35 | a fresh session service and memory bank, shared with the extraction agent |
| Orchestrator.DocumentOrchestrator.ProcessDocument | document_processing/orchestrator.py:39-94 | the result holds each stage's specified output; the run's session holds the six stage results; the pattern is filed as the memory bank prescribes |
| Evaluation.FilledFields | document_processing/evaluation.py:33-40 | the count of non-empty entity lists is 0 to 4; it is 0 exactly when all are empty and 4 exactly when none is |
| Evaluation.Completeness | document_processing/evaluation.py:33-41 | the completeness is a quarter step, a quarter of the filled count, 0 exactly when nothing was found and 1 exactly when everything was |
| Evaluation.SumBounds | document_processing/evaluation.py:52-57 | a sum of scores in [0, 1] lies between 0 and the number of scores |
| Evaluation.NextAverage | document_processing/evaluation.py:30-31 | the new figure lies between the old figure and the new time |
| Evaluation.AverageOfEqualTimes | document_processing/evaluation.py:20-31 | after n results of t ms each, the figure is t·(1 − 1/2ⁿ), not t |
| Evaluation.TwoEqualTimes | document_processing/evaluation.py:30-31 | two results of 100 ms leave the figure at 75 |
| Evaluation.Evaluator.constructor | document_processing/evaluation.py:18-23 | zero processed, a figure of 0, no scores |
| Evaluation.Evaluator.EvaluateResult | document_processing/evaluation.py:26-42 | the count grows by one, the figure becomes the mean of the old one and the new time, and one completeness score is appended |
| Evaluation.Evaluator.GetReport | document_processing/evaluation.py:50-63 | the report carries the count and the figure; its completeness is 0 with no scores and otherwise their mean, which lies in [0, 1] |

## Left out

- Logging is left out throughout. It has no effect on results.
- Clocks:
  - `datetime.now()` is not modelled. The clock-made id, the result timestamp and the elapsed milliseconds are parameters of `ProcessDocument`.
  - The `created_at` and history `timestamp` fields are left out of sessions.
- Python's `str()` of a stored value is left out. Each session service is given a rendering function, and the history keeps its first 100 characters.
- `asdict` conversion is left out. Sessions store the records themselves.
- Floating point: confidences, amounts and the evaluator's figures are exact `real`s.
- `round(..., 2)` in `get_report` is left out.
- `int()` truncation of the elapsed time is left out. The elapsed time is given as a whole number of milliseconds.
- Text is taken to be ASCII. `str.lower`, `str.split()` and `\s` are modelled for ASCII characters only.
- Agents.ParseDecimal: accepts only digits with at most one point and at least one digit. `float()` also accepts signs, exponents, surrounding whitespace, "inf" and "nan". Cleaned scanner amounts never contain those.
- Tools.Distinct: picks the elements of the set in an order the model leaves open, as `list(set(...))` does. So the contracts of `ExtractParties` and `Extract` constrain which five parties are kept only by membership, distinctness and count.
- Agents.ExtractionAgent.Extract: models `doc_type or "Unknown"` and `confidence or 0.0` for the stored string and number only. Python truthiness on other stored values is not modelled.
- Sessions are values. The source's `create_session` returns the stored dictionary itself, so later updates show through it. The model's returned `Session` is a snapshot.
- Concurrency is left out. The source has none.
- `DocumentClassifierAgent` keeps a memory bank it never uses; that reference is left out.
- The ADK application, configuration and command-line entry points are not part of this model.
