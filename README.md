# Iris project-summary backend, modelled in Dafny

Iris is a voice assistant for project intake. A user talks about a project. Each
transcript chunk is posted to `POST /api/messages`. The backend then does four things:

- it stores the message in an in-memory conversation log;
- it analyses the user side of the whole conversation;
- it merges the resulting *project summary* onto the one stored for the conversation;
- it stores and returns a short French acknowledgement.

A project summary has four fields: a title, a start date, an end date and a budget.
Each field is nullable.

The analysis asks a local language model (Ollama) for a JSON summary. It cleans the reply
of Markdown fences and surrounding prose, reads a string budget as an integer, and checks
the result against the summary schema. Whenever any of that fails, it falls back to a
cascade of regular-expression extractors: one each for the title, the start date, the end
date and the budget.

The modules follow the backend's structure:

| module | file | models |
|---|---|---|
| `ProjectSummary` | project_summary.dfy | the backend summary type, its zod schema, `createEmptyProjectSummary`, `isValidDateFormat` |
| `FrontendSummary` | frontend_summary.dfy | the frontend's `createEmptyProjectSummary` and `hasSummaryData` |
| `PatternCascade` | pattern_cascade.dfy | a regex match, and "the first pattern that yields a value" |
| `TitleExtraction` | title_extraction.dfy | `extractTitle` |
| `DateExtraction` | date_extraction.dfy | `extractDate` |
| `BudgetExtraction` | budget_extraction.dfy | `extractBudget` |
| `ResponseNormaliser` | response_normaliser.dfy | the cleaning, budget coercion and schema check inside `analyzeTranscript` |
| `AiMessage` | ai_message.dfy | `generateAiMessage` |
| `Analyzer` | analyze_transcript.dfy | `analyzeTranscript`, `analyzeTranscriptMock` |
| `SummaryMerge` | summary_merge.dfy | `mergeSummaries`, `hasSummaryContent`, `countFilledFields`, `getChanges` |
| `MessageRepository` | message_repository.dfy | `InMemoryMessageRepository` |
| `ProjectSummaryRepository` | summary_repository.dfy | `InMemoryProjectSummaryRepository` |
| `ConversationTurn` | turn.dfy | one `POST /api/messages` turn |
| `Text`, `Wrappers` | text.dfy, wrappers.dfy | the JavaScript string built-ins used (`trim`, `\s`, `toLowerCase`, `parseInt`, `padStart`, `split`, `join`), and `Option` |

The modelling choices:

- **Pure code becomes functions.** The extractors, the merge and the message builder
  are pure functions.
- **Loops become methods.** Each extractor's `for` loop over its patterns, and
  `generateAiMessage`'s `push` sequence, is a method proved equal to a specification
  function.
- **Stateful code becomes classes.** The two repositories are classes whose `store`
  field stands for the module-level `Map` singleton.
- **The regex engine is abstract.** A pattern is a `Matcher`, a function from the text
  to an optional `Match`: the whole match plus its capture groups. The behaviour after a
  match, which is what the source code decides, is modelled in full.
- **The outside world is a parameter.** `Analyzer.Environment` holds the patterns, the
  current year, `JSON.parse`, the fr-FR formatters and the language model.

## Model

| member | source | states |
|---|---|---|
| ProjectSummary.CreateEmptyProjectSummary | backend/src/models/ProjectSummary.ts:19-26 | every field of the new summary is null |
| ProjectSummary.FilledFields | backend/src/models/ProjectSummary.ts:7-12 | the non-null fields are a subset of the four schema fields |
| ProjectSummary.NullableString | backend/src/models/ProjectSummary.ts:8-10 | `z.string().nullable()` accepts a key exactly when it is present and holds null or a string |
| ProjectSummary.NullableNumber | backend/src/models/ProjectSummary.ts:11 | `z.number().nullable()` accepts a key exactly when it is present and holds null or a number, so NaN is refused |
| ProjectSummary.SchemaParse | backend/src/models/ProjectSummary.ts:7-12 | only an object is accepted, and only if its budget is neither a string nor NaN |
| ProjectSummary.SchemaAcceptsExactlyWellTyped | backend/src/models/ProjectSummary.ts:7-12 | an object is accepted exactly when its title and dates are each null or a string and its budget null or a number, extra properties allowed; the summary read is those four values |
| ProjectSummary.MistypedTextRefused | backend/src/models/ProjectSummary.ts:8-10 | a title or date present but neither null nor a string makes the parse fail |
| ProjectSummary.MissingPropertyRefused | backend/src/models/ProjectSummary.ts:8-11 | a missing property (undefined) makes the parse fail |
| ProjectSummary.UnknownPropertiesIgnored | backend/src/models/ProjectSummary.ts:7-12 | a property outside the four never changes the result: zod strips it |
| ProjectSummary.SchemaAcceptsEverySummary | backend/src/models/ProjectSummary.ts:7-14 | the schema accepts the JSON of every summary and gives that summary back (round trip) |
| ProjectSummary.EmptySummarySatisfiesSchema | backend/src/models/ProjectSummary.ts:19-26 | the empty summary satisfies the schema |
| ProjectSummary.IsValidDateFormat | backend/src/models/ProjectSummary.ts:31-36 | an accepted string is ten characters: four digits, '-', two digits, '-', two digits; it is also accepted by the `Date` parser |
| FrontendSummary.CreateEmptyProjectSummary | frontend/src/types/ProjectSummary.ts:14-21 | the new summary has no filled field |
| FrontendSummary.HasSummaryData | frontend/src/types/ProjectSummary.ts:26-33 | true exactly when some field is non-null, that is, when the summary differs from the empty one |
| FrontendSummary.EmptyHasNoData | frontend/src/types/ProjectSummary.ts:14-33 | the empty summary has no data |
| FrontendSummary.SingleFieldHasData | frontend/src/types/ProjectSummary.ts:26-33 | any single non-null field, even an empty string or a zero budget, counts as data |
| PatternCascade.FirstSomeSpec | backend/src/services/analyzeTranscript.ts:331-362 | the cascade yields nothing exactly when no pattern yields a value; otherwise it yields the value of the first pattern that does |
| PatternCascade.FirstSomeAt | backend/src/services/analyzeTranscript.ts:495-510 | when pattern i is the first to yield a value, the cascade returns that value |
| TitleExtraction.StripTrailingFiller | backend/src/services/analyzeTranscript.ts:337-342 | a trailing filler word ("pour", "le", "ça", …) and the whitespace before it are removed, and the rest is right-trimmed; other titles are unchanged |
| TitleExtraction.TitleCandidateSound | backend/src/services/analyzeTranscript.ts:333-359 | an accepted title is longer than one character, is not an invalid word, and does not start like a description; it equals the cleaned capture up to case, at the same length |
| TitleExtraction.FillerAloneRejected | backend/src/services/analyzeTranscript.ts:334-352 | a capture that is just a filler word yields no title |
| TitleExtraction.InvalidTitleRejected | backend/src/services/analyzeTranscript.ts:345-352 | a cleaned capture on the invalid-word list yields no title |
| TitleExtraction.TrailingFillerExample | backend/src/services/analyzeTranscript.ts:334-358 | example: the capture "helios pour" gives the title "Helios" |
| TitleExtraction.CapitalizeWordsAt | backend/src/services/analyzeTranscript.ts:355-358 | the length is kept; each character that starts the string or follows a space is upper-cased, and every other character is kept |
| TitleExtraction.CapitalizeKeepsLower | backend/src/services/analyzeTranscript.ts:355-358 | capitalisation changes no letter other than its case |
| TitleExtraction.TitleCandidates | backend/src/services/analyzeTranscript.ts:331-333 | one candidate per pattern, in the patterns' order |
| TitleExtraction.TitleFromMatch | backend/src/services/analyzeTranscript.ts:333-360 | the loop body returns the candidate title of a match, and any title it returns is acceptable |
| TitleExtraction.ExtractTitle | backend/src/services/analyzeTranscript.ts:315-363 | returns the first candidate of the patterns in order; returns null exactly when no pattern yields one; any title returned is acceptable |
| DateExtraction.MonthsAreMonthTexts | backend/src/services/analyzeTranscript.ts:370-386 | every month name maps to a two-digit month number from 01 to 12 |
| DateExtraction.DaysInMonth | backend/src/services/analyzeTranscript.ts:469-473 | a month has 28 to 31 days; February has 29 exactly in leap years |
| DateExtraction.LastDayOfMonth | backend/src/services/analyzeTranscript.ts:468-474 | for a year written in digits, "fin" is the month's number of days, as two digits |
| DateExtraction.EndOfFebruary | backend/src/services/analyzeTranscript.ts:468-474 | the end of February is "29" in leap years and "28" otherwise |
| DateExtraction.EndOfFebruary2024 | backend/src/services/analyzeTranscript.ts:468-474 | example: February 2024 ends on the 29th |
| DateExtraction.EndOfFebruary2025 | backend/src/services/analyzeTranscript.ts:468-474 | example: February 2025 ends on the 28th |
| DateExtraction.MonthNameIsNotNumber | backend/src/services/analyzeTranscript.ts:424-449 | a month name never passes the one-or-two-digit test |
| DateExtraction.DateCandidates | backend/src/services/analyzeTranscript.ts:408-411 | one candidate per pattern, taken from the start list or the end list according to the kind |
| DateExtraction.DateFromMatch | backend/src/services/analyzeTranscript.ts:412-479 | the loop body returns the candidate date of a match (numeric form corrected as under Findings) |
| DateExtraction.DateFromGroups | backend/src/services/analyzeTranscript.ts:418-478 | the ISO, numeric and month-name forms, tried in order, give the corrected date forms of the groups |
| DateExtraction.NamedMonthDate | backend/src/services/analyzeTranscript.ts:438-478 | a day and a month name, "mi" and a month name, then a position and a month name, tried in order |
| DateExtraction.PositionDate | backend/src/services/analyzeTranscript.ts:459-477 | the day starts at "01" and becomes "15" for "mi"/"milieu" or the last day for "fin", with the kind deciding a missing position |
| DateExtraction.ExtractDate | backend/src/services/analyzeTranscript.ts:365-483 | returns the first candidate of the selected patterns in order; returns null exactly when none yields one (candidates use the corrected numeric form, see Findings and "## Left out") |
| DateExtraction.BeforeSummer | backend/src/services/analyzeTranscript.ts:413-416 | the "avant l'été" pattern always gives the 30th of June of next year |
| DateExtraction.IsoDateVerbatim | backend/src/services/analyzeTranscript.ts:418-421 | an ISO date in the first group is returned unchanged |
| DateExtraction.NumericDate | backend/src/services/analyzeTranscript.ts:423-436 | day/month/year with a two- or four-digit year: a two-digit year gets the prefix "20", and day and month are zero-padded |
| DateExtraction.DayOfNamedMonth | backend/src/services/analyzeTranscript.ts:438-449 | a day and a month name give that day of the month, in the captured year or else next year |
| DateExtraction.PositionInNamedMonth | backend/src/services/analyzeTranscript.ts:451-478 | "mi"/"milieu" give the 15th and "fin" the last day; "début" gives the 1st; with no position word, an end date takes the last day and a start date the 1st |
| DateExtraction.FromGroupsShape | backend/src/services/analyzeTranscript.ts:418-478 | with the numeric form corrected, every date built from the groups has the YYYY-MM-DD shape, for every year capture `(\d{2,4})` and `(\d{4})?` can produce (three-digit years included) and a four-digit next year |
| DateExtraction.DateCandidateShape | backend/src/services/analyzeTranscript.ts:410-479 | the same holds for every pattern, the summer idiom included |
| DateExtraction.ThreeDigitYearAsWritten | backend/src/services/analyzeTranscript.ts:424-435 | as written, the numeric form turns day "15", month "03" and the capturable year "202" into "202-03-15", which is not YYYY-MM-DD |
| DateExtraction.CorrectionOnlyDropsOddYears | backend/src/services/analyzeTranscript.ts:424-435 | the correction yields nothing for a numeric date whose year is not two or four digits, and agrees with the code as written everywhere else |
| BudgetExtraction.MentionsThousandsIff | backend/src/services/analyzeTranscript.ts:501 | the lower-cased "k" test holds exactly when the match contains 'k' or 'K' |
| BudgetExtraction.BudgetCandidate | backend/src/services/analyzeTranscript.ts:497-507 | a kept amount is positive |
| BudgetExtraction.BudgetFromDigits | backend/src/services/analyzeTranscript.ts:498-507 | a capture of digits and spaces gives its digits' value, times 1000 when "k" is mentioned, and is kept exactly when that value is positive |
| BudgetExtraction.NoNumberNoBudget | backend/src/services/analyzeTranscript.ts:499-505 | a capture `parseInt` reads as NaN yields nothing |
| BudgetExtraction.ThousandsExample | backend/src/services/analyzeTranscript.ts:497-506 | example: "15k€" with the capture "15" is 15000 |
| BudgetExtraction.SpacedDigitsExample | backend/src/services/analyzeTranscript.ts:497-506 | example: "12 500 €" with the capture "12 500" is 12500 |
| BudgetExtraction.BudgetCandidates | backend/src/services/analyzeTranscript.ts:495-496 | one candidate per pattern, in the patterns' order |
| BudgetExtraction.BudgetFromMatch | backend/src/services/analyzeTranscript.ts:497-508 | the loop body returns the candidate amount of a match |
| BudgetExtraction.ExtractBudget | backend/src/services/analyzeTranscript.ts:485-511 | returns the first positive amount in pattern order; returns null exactly when no pattern yields one; any amount returned is positive |
| ResponseNormaliser.StripOpeningFence | backend/src/services/analyzeTranscript.ts:194-198 | strips "```json" when the text starts with it, else "```" when it starts with that, else nothing |
| ResponseNormaliser.StripClosingFence | backend/src/services/analyzeTranscript.ts:199-201 | strips a final "```", and otherwise changes nothing |
| ResponseNormaliser.BraceSpan | backend/src/services/analyzeTranscript.ts:205-208 | the match of `/\{[\s\S]*\}/` runs from the first '{' to the last '}' |
| ResponseNormaliser.BraceSpanExists | backend/src/services/analyzeTranscript.ts:205-206 | there is a match exactly when some '{' comes before some '}' |
| ResponseNormaliser.CleanResponse | backend/src/services/analyzeTranscript.ts:191-208 | the imperative cleaning equals the specification `Cleaned` |
| ResponseNormaliser.CleanedFencedText | backend/src/services/analyzeTranscript.ts:191-208 | cleaning is trim, fence removal, trim again, then keeping the object |
| ResponseNormaliser.JsonFenceRemoved | backend/src/services/analyzeTranscript.ts:194-208 | a reply in a "```json" fence is cleaned to its trimmed payload's object |
| ResponseNormaliser.BareFenceRemoved | backend/src/services/analyzeTranscript.ts:196-208 | the same for a bare "```" fence |
| ResponseNormaliser.ProseAroundObjectRemoved | backend/src/services/analyzeTranscript.ts:205-208 | prose without braces before and after an object is dropped |
| ResponseNormaliser.BudgetNumber | backend/src/services/analyzeTranscript.ts:217-220 | a string budget becomes a number or NaN |
| ResponseNormaliser.StringBudgetCoerced | backend/src/services/analyzeTranscript.ts:216-221 | a non-empty string budget of digits and spaces becomes its integer value |
| ResponseNormaliser.UnreadableBudgetRejected | backend/src/services/analyzeTranscript.ts:216-223 | a string budget `parseInt` cannot read becomes NaN, which the schema refuses |
| ResponseNormaliser.SummaryJsonAccepted | backend/src/services/analyzeTranscript.ts:213-223 | the JSON of any summary passes coercion and the schema unchanged |
| ResponseNormaliser.SummaryReplyAccepted | backend/src/services/analyzeTranscript.ts:184-223 | a non-empty reply that cleans and parses to a summary's JSON is validated to that summary |
| ResponseNormaliser.UnusableReplyRejected | backend/src/services/analyzeTranscript.ts:184-213 | an empty reply, or one `JSON.parse` throws on, validates to nothing |
| AiMessage.PresentCount | backend/src/services/analyzeTranscript.ts:247-258 | at most four fields are truthy |
| AiMessage.GenerateAiMessage | backend/src/services/analyzeTranscript.ts:244-265 | the push sequence builds exactly the specification message `AckMessage` |
| AiMessage.PartsCount | backend/src/services/analyzeTranscript.ts:245-258 | there is one part per truthy field |
| AiMessage.ListeningIffNothingPresent | backend/src/services/analyzeTranscript.ts:260-262 | the listening prompt is returned exactly when no field is truthy |
| AiMessage.EmptySummaryListens | backend/src/services/analyzeTranscript.ts:260-262 | the empty summary gets the listening prompt |
| AiMessage.AckShape | backend/src/services/analyzeTranscript.ts:264 | otherwise the message starts with "Bien noté ! " and the first part, and ends with '.' |
| AiMessage.TitleComesFirst | backend/src/services/analyzeTranscript.ts:247-249 | a truthy title is the first part |
| AiMessage.BudgetComesLast | backend/src/services/analyzeTranscript.ts:256-258 | a truthy budget is the last part |
| AiMessage.FalsyFieldsOmitted | backend/src/services/analyzeTranscript.ts:247-258 | an empty-string or zero field changes the message no more than null does |
| Analyzer.AnalyzeTranscriptMock | backend/src/services/analyzeTranscript.ts:287-309 | the four extractors run on the stored transcript, and the message acknowledges their summary (dates with the corrected numeric form) |
| Analyzer.AnalyzeTranscript | backend/src/services/analyzeTranscript.ts:152-239 | the result is the specification `TranscriptAnalysis` of the stored transcript |
| Analyzer.BlankTranscriptIgnoresModel | backend/src/services/analyzeTranscript.ts:161-167 | a blank transcript gets the empty summary and the "nothing yet" message, whatever the environment |
| Analyzer.NothingYetOnlyForBlank | backend/src/services/analyzeTranscript.ts:161-167 | a non-blank transcript never gets the "nothing yet" message |
| Analyzer.AckIsNotNothingYet | backend/src/services/analyzeTranscript.ts:165 | no acknowledgement is the "nothing yet" message |
| Analyzer.MessageDescribesSummary | backend/src/services/analyzeTranscript.ts:226-237 | on every non-blank path, the message acknowledges exactly the summary returned |
| Analyzer.ModelSummaryAdopted | backend/src/services/analyzeTranscript.ts:182-231 | a usable model reply is adopted as it is |
| Analyzer.UnusableReplyFallsBack | backend/src/services/analyzeTranscript.ts:182-238 | no reply, an empty one or an unparsable one falls back to the mock |
| Analyzer.ModelFailureFallsBack | backend/src/services/analyzeTranscript.ts:232-238 | any failure to validate falls back to the mock |
| Analyzer.UnreadableBudgetFallsBack | backend/src/services/analyzeTranscript.ts:216-238 | a string budget `parseInt` reads as NaN sends the analysis to the mock |
| Analyzer.MockSummaryWellFormed | backend/src/services/analyzeTranscript.ts:297-302 | the mock's title is acceptable and its budget positive |
| Analyzer.MockDatesWellShaped | backend/src/services/analyzeTranscript.ts:299-300 | with the numeric form corrected, the mock's dates have the YYYY-MM-DD shape for every capture the patterns can produce, when the current year has four digits |
| Analyzer.OnlyUserMessagesMatter | backend/src/repositories/messageRepository.ts:51-54 | an assistant or system message never changes the analysis |
| SummaryMerge.MergeSummaries | backend/src/services/summaryMerge.ts:15-30 | without an existing summary the new one is returned; otherwise each non-null new field wins and each null one keeps the old value |
| SummaryMerge.MergeWithEmptyIsIdentity | backend/src/services/summaryMerge.ts:24-29 | merging the empty summary keeps the existing one |
| SummaryMerge.MergeOntoEmptyIsFresh | backend/src/services/summaryMerge.ts:24-29 | merging onto the empty summary gives the new one |
| SummaryMerge.MergeIdempotent | backend/src/services/summaryMerge.ts:15-30 | merging the same summary twice changes nothing more |
| SummaryMerge.MergeFilledFields | backend/src/services/summaryMerge.ts:24-29 | the merge's filled fields are the union of both summaries' filled fields |
| SummaryMerge.MergeNeverRegresses | backend/src/services/summaryMerge.ts:7-9 | a field that was filled stays filled |
| SummaryMerge.MergeAssociative | backend/src/services/summaryMerge.ts:24-29 | merging is associative |
| SummaryMerge.LastNonNullSpec | backend/src/services/summaryMerge.ts:7-9 | the last non-null value of a sequence, and none exactly when all are null |
| SummaryMerge.MergeAllKeepsLatest | backend/src/services/summaryMerge.ts:7-9 | after a series of turns, each field holds its latest non-null value |
| SummaryMerge.HasSummaryContent | backend/src/services/summaryMerge.ts:35-42 | true exactly when some field is non-null |
| SummaryMerge.CountFilledFields | backend/src/services/summaryMerge.ts:47-54 | the count is the number of non-null fields; it is at most 4, and it is 0 exactly when there is no content |
| SummaryMerge.FilledFieldsCount | backend/src/services/summaryMerge.ts:47-54 | the number of filled fields is the sum over the four fields |
| SummaryMerge.FieldChange | backend/src/services/summaryMerge.ts:65-84 | a field gets an entry exactly when the new value is truthy and, if there is an old summary, differs from the old value; the entry is "listed" without an old summary and "updated" when the old value was truthy |
| SummaryMerge.ChangesOrdered | backend/src/services/summaryMerge.ts:59-87 | at most four entries, in the field order title, start date, end date, budget |
| SummaryMerge.ChangesReportField | backend/src/services/summaryMerge.ts:59-87 | a field is reported exactly when its change is due, and with that change |
| SummaryMerge.NoChangesAfterMerge | backend/src/services/summaryMerge.ts:73-84 | comparing the merge, or the summary itself, to the new summary reports nothing |
| SummaryMerge.GetChanges | backend/src/services/summaryMerge.ts:59-87 | the lines pushed are the rendered change entries, in order |
| SummaryMerge.ListedChanges | backend/src/services/summaryMerge.ts:65-71 | without an old summary, the "défini"/"Date de …" lines for the truthy fields |
| SummaryMerge.ChangedFields | backend/src/services/summaryMerge.ts:73-86 | with an old summary, the "mis(e) à jour"/"défini(e)" lines for the changed fields |
| SummaryMerge.RenderChanges | backend/src/services/summaryMerge.ts:59-87 | the rendered lines of all fields are the lines of each field in turn |
| MessageRepository.RecentKeepsLast | backend/src/repositories/messageRepository.ts:49 | with no limit or a zero one, all messages are kept; otherwise the last `limit` ones |
| MessageRepository.UserContentsAppend | backend/src/repositories/messageRepository.ts:51-53 | filtering the user contents distributes over concatenation |
| MessageRepository.UserContentsOnlyUsers | backend/src/repositories/messageRepository.ts:51-53 | the transcript holds exactly the contents of the user messages |
| MessageRepository.HistoryIgnoresOtherRoles | backend/src/repositories/messageRepository.ts:51-54 | appending a non-user message leaves the history unchanged |
| MessageRepository.HistoryAppendsUserText | backend/src/repositories/messageRepository.ts:51-54 | appending a user message appends its content, after a blank line when the history is not empty |
| MessageRepository.InMemoryMessageRepository.constructor | backend/src/repositories/messageRepository.ts:8 | the store starts empty |
| MessageRepository.InMemoryMessageRepository.MessagesOf | backend/src/repositories/messageRepository.ts:44 | an unknown conversation has no messages |
| MessageRepository.InMemoryMessageRepository.AddMessage | backend/src/repositories/messageRepository.ts:26-41 | the message is appended to its conversation, which is created if missing; other conversations are untouched |
| MessageRepository.InMemoryMessageRepository.GetMessages | backend/src/repositories/messageRepository.ts:43-45 | the stored messages, or none for an unknown conversation |
| MessageRepository.InMemoryMessageRepository.GetConversationHistory | backend/src/repositories/messageRepository.ts:47-55 | the user contents of the last `limit` messages, joined by blank lines |
| MessageRepository.InMemoryMessageRepository.ClearConversation | backend/src/repositories/messageRepository.ts:57-60 | the conversation is removed, so its history is empty |
| ProjectSummaryRepository.InMemoryProjectSummaryRepository.constructor | backend/src/repositories/projectSummaryRepository.ts:53 | the store starts empty |
| ProjectSummaryRepository.InMemoryProjectSummaryRepository.Lookup | backend/src/repositories/projectSummaryRepository.ts:59-62 | a summary is found exactly when the key is stored |
| ProjectSummaryRepository.InMemoryProjectSummaryRepository.SaveProjectSummary | backend/src/repositories/projectSummaryRepository.ts:54-57 | the key is set to the summary, and other keys are untouched |
| ProjectSummaryRepository.InMemoryProjectSummaryRepository.GetProjectSummary | backend/src/repositories/projectSummaryRepository.ts:59-62 | returns the stored summary, or null |
| ProjectSummaryRepository.InMemoryProjectSummaryRepository.DeleteProjectSummary | backend/src/repositories/projectSummaryRepository.ts:64-66 | returns whether the key was stored, and removes it |
| ProjectSummaryRepository.InMemoryProjectSummaryRepository.GetAllSummaries | backend/src/repositories/projectSummaryRepository.ts:71-73 | a copy with the same keys and values |
| ProjectSummaryRepository.InMemoryProjectSummaryRepository.ClearAll | backend/src/repositories/projectSummaryRepository.ts:78-81 | the store is emptied |
| ProjectSummaryRepository.SaveGetDelete | backend/src/repositories/projectSummaryRepository.ts:54-66 | save, then get, then delete: the summary is read back, the delete reports true, and afterwards nothing is found; other keys are untouched |
| ConversationTurn.PostMessage | backend/src/routes/messages.ts:27-83 | an invalid body gives a 400 and changes nothing; otherwise the stored summary becomes the merge of the old one with the analysis, the user message and the reply are appended, and the reply and merged summary are returned |
| ConversationTurn.RecordAndAnalyse | backend/src/routes/messages.ts:50-56 | the user message is stored, and the analysis reads the transcript that includes it |
| ConversationTurn.CompleteTurn | backend/src/routes/messages.ts:58-77 | the merge is saved, and the assistant reply is appended |
| ConversationTurn.TurnNeverLosesFields | backend/src/routes/messages.ts:58-74 | the saved summary's filled fields are the stored ones plus the analysed ones |
| ConversationTurn.ReplyNotInNextTranscript | backend/src/routes/messages.ts:76-77 | the stored reply never enters the next turn's transcript |

## Left out

- Regular expressions are not interpreted. Each pattern is an abstract `Matcher`, and the
  extractors' pattern lists are parameters. The summer idiom's `pattern.source.includes`
  test is a flag on the date pattern.
- `callOllama`, `SYSTEM_PROMPT` and the prompt built around the transcript are left out.
  The model is a function from the transcript to a reply or a failure.
- `checkOllamaStatus`, the HTTP client and timeouts are left out.
- `JSON.parse` is a parameter returning an optional JSON value; a throw is the absent value.
- `formatDate` and `toLocaleString("fr-FR")` are the `Formatters` parameter.
  Locale formatting is outside the model.
- The clock is left out. The current year, the message ids and the timestamps are
  parameters. The ids come from `Date.now()` and a random suffix.
- Numbers are integers. A budget with a fractional part, and JavaScript's
  double-precision range, are not modelled.
- `new Date(dateString)` in `isValidDateFormat` is the `parsesAsDate` parameter.
- `new Date(y, m, 0)` is modelled only for the year range it is used with. Two-digit
  years mean the 1900s; dates outside the `Date` range are not modelled.
- `toLowerCase`/`toUpperCase` are modelled for ASCII and the Latin-1 letters except 'ß',
  'ÿ' and 'µ', whose upper case lies outside Latin-1 or is more than one character. The
  model keeps them unchanged. The title capture class `[A-Za-zÀ-ÿ]` admits 'ß' and 'ÿ' but
  not 'µ'. So `CapitalizeWords` differs from the source on a title word that starts with
  'ß', which JavaScript upper-cases to "SS" (making the title one character longer), or
  with 'ÿ', which it upper-cases to 'Ÿ'. Other scripts are left out too.
- `getAllConversations` in the message repository is a debug helper that returns the
  store's keys. It is left out; the `store` field exposes the same keys.
- In the source, both stores are module-level `Map`s, shared by every instance of the
  repository classes. Here each instance has its own `store` field. The backend uses one
  exported instance of each, so the difference cannot be observed there.
- `getMessages` returns the stored array itself, so a caller that pushed to it would
  change the store. Here it returns a value; no caller in the backend mutates it.
- Aliasing is not modelled. `saveProjectSummary` and `getProjectSummary` copy the
  summary with `{ ...summary }`, and summaries here are values, so the copy has no
  observable effect.
- `async`/`await` is left out: each step of a turn runs to completion before the next.
  Concurrent requests on one conversation are not modelled.
- Logging (`console.log`/`console.error`) is left out. The route only logs the result of
  `getChanges`; the model computes it but does not call it from `PostMessage`.
- The route's 500 answer is left out, because no step of the model can throw.
- The `GET`/`DELETE` routes, `index.ts` and the frontend components are not part of this
  model.
- ConversationTurn.PostMessage: a request schema failure is modelled only as
  "conversationId or text is empty". Non-string or missing fields cannot arise once the
  body is typed.
- DateExtraction.ExtractDate: the date cascade, and through it `AnalyzeTranscriptMock`,
  `AnalyzeTranscript` and `PostMessage`, use the corrected numeric form of the Findings
  table, not the code as written. On a numeric date whose year has three digits they return
  a later pattern's date, or null, where the source returns, for example, "202-03-15".
  `CorrectionOnlyDropsOddYears` bounds the difference: that is the only case in which the
  corrected and the as-written forms differ.
- Analyzer.MockDatesWellShaped: the YYYY-MM-DD shape is proved for the year captures the
  patterns' groups can produce, not for arbitrary captures, and only for a current year
  from 999 to 9998; a year outside that range does not print as four digits.

## Findings

| source | as written | input that shows it | evidently intended | confidence | as-written member | corrected member |
|---|---|---|---|---|---|---|
| backend/src/services/analyzeTranscript.ts:424-435 | the numeric date patterns (lines 391 and 401) capture the year with `(\d{2,4})`, and the numeric form prints any captured year as it is | "termine le 15/03/202": the end date becomes "202-03-15" | every returned date is YYYY-MM-DD, so a numeric year has two or four digits (a three-digit year is not taken as a numeric date) | high (not executed) | DateExtraction.ThreeDigitYearAsWritten | DateExtraction.DateCandidateShape |

`DateExtraction.FromGroupsAsWritten` is the numeric form as written. `DateExtraction.FromGroups`
is the corrected form, and `DateFromMatch`, `ExtractDate` and the analysis use it.
