# Blood results analyzer: a Dafny model of its analysis pipeline

The blood results analyzer is a web application. A user uploads a lab report and fills in a
profile. The application reads the report's text, parses it into one record per test, and
classifies every test as Normal, Low, High and so on. It then writes a summary and a list of
recommendations, and keeps the profile, the current session and a short history in the
browser's storage.

This project models the deterministic core of that pipeline in Dafny and proves what it
promises.

- `OcrService` (`ocr_service.dfy`) models the line parser. It splits the report into lines and
  matches each one against `([^:]+):\s*([\d.]+)\s*([^\s(]+)\s*(?:\(Ref:\s*([^)]+)\))?`, the way a
  backtracking engine runs that pattern: leftmost start, greedy runs, and the two places where
  backtracking changes the captures. Each match is stored under its trimmed name, and the last
  line with a given name wins.
- `OcrAnalysis` (`ocr_analysis.dfy`) models the catalogue analysis that sits beside the parser.
  It has fixed thresholds for Hemoglobin (which depend on the gender), Glucose and Cholesterol,
  and gives 'See reference' to everything else. It builds its summary clause by clause and its
  recommendations block by block.
- `MedicalAnalysis` (`medical_analysis.dfy`) models the range-based analysis.
  - It reads each record's own reference range: `x-y`, then `<x`, then `>x`.
  - It generates the fallback summary and recommendations.
  - It merges an already decoded enrichment reply into the local analysis, including the shared
    entry objects of the shallow copy and the throw on a null entry.
  - It returns the fixed insight lists.
- `StorageService` (`storage_service.dfy`) is a class `Store` whose two map fields stand for
  localStorage and sessionStorage. Its methods are the profile, session and history operations.
  The history is newest first and holds at most ten items.
- `ResultsAnalysis` (`results_analysis.dfy`) models what the results page computes when it opens:
  - its two precondition checks;
  - its own thresholds (Hemoglobin 12/16, Glucose 70/100);
  - the `{ text, abnormalCount, abnormalParams }` summary.
- `SampleReport` (`sample_report.dfy`) works through the canned report text the OCR step returns.
  - It proves what the parser makes of that text.
  - It proves that the range-based analysis finds every result Normal.
  - It proves that the catalogue analysis nevertheless flags four results, because they have no
    threshold of their own.
- Shared pieces:
  - `Text`: JavaScript `\s`, `split`, `trim`, `replace`, and decimal printing.
  - `Numbers`: the JavaScript number with NaN and the infinities, `<`, and `parseFloat`.
  - `OrderedMaps`: objects with insertion-ordered keys.
  - `Lab`: the shared records and the abnormal-key filter.
  - `Options`.

Where the source updates state step by step, the model does the same. `ParseBloodTestResults`,
`PerformBasicAnalysis`, `AnalyseEntry`, both `AnalyzeBloodResults`, `ParseAIResponse`,
`AnalyseStoredResults` and the `Store` methods are methods with loops or field updates. Each is
proved equal to a specification function, and the properties are proved about that function.

Three facts about the code that shape the model:

- The line parser keeps no track of section headers and has a single line pattern. Header lines
  such as `COMPLETE BLOOD COUNT` have no colon, so they never match and add nothing.
- In `src/services/medicalAnalysisService.js`, the request for enrichment (line 114) sits outside
  the `try` at line 140 that falls back to the basic analysis. A failed request therefore makes
  the whole analysis fail with the error's message; it does not fall back to the basic analysis.
- The enrichment builds its prompt (lines 111 and 164) before any request, and reads
  `userProfile.age` there. With a null profile the exported `analyzeBloodResults` always fails
  with the resulting TypeError's message.

## Model

| member | source | states |
|---|---|---|
| Text.Split | src/services/ocrService.js:44 | text without the separator is one piece, itself; text with it splits into at least two pieces |
| Text.SplitPiecesFree | src/services/ocrService.js:44 | no piece of a split contains the separator |
| Text.JoinOfSplit | src/services/ocrService.js:44 | joining the lines of a split with the separator gives back the text |
| Text.SplitOfJoin | src/services/ocrService.js:44 | splitting a join of separator-free lines gives back those lines |
| Text.Trim | src/services/ocrService.js:52 | the trimmed name is the slice of the name between its leading and trailing white space, and neither starts nor ends with white space |
| Text.TrimUnchanged | src/services/ocrService.js:52 | a name that neither starts nor ends with white space is its own trim |
| Text.TrimIdempotent | src/services/ocrService.js:52 | trimming a trimmed name changes nothing |
| Text.RemoveFirst | src/services/medicalAnalysisService.js:47 | replacing a one-character pattern that occurs removes exactly one occurrence (one character shorter, the same characters less one), and putting the character back where its first occurrence stood restores the text; text without it is unchanged |
| Text.NatToString | src/services/medicalAnalysisService.js:229 | a count prints as one or more decimal digits with no leading zero |
| Text.DecimalValueOfNatToString | src/services/medicalAnalysisService.js:229 | reading back the printed count gives the count |
| Text.NatToStringInjective | src/services/medicalAnalysisService.js:229 | different counts print differently, so the count in a summary identifies the number of abnormal results |
| Numbers.ParseFloatDecimal | src/services/ocrService.js:53 | `parseFloat` of digits, a dot and fraction digits, followed by non-numeric text, is that exact decimal |
| Numbers.ParseFloatInteger | src/services/ocrService.js:53 | `parseFloat` of a printed whole number followed by non-numeric text is that number |
| Numbers.ParseFloatWithoutDigits | src/services/medicalAnalysisService.js:44 | text without a digit never parses to a finite number |
| Numbers.ParseFloatNaN | src/services/medicalAnalysisService.js:44 | text without a digit and without `Infinity` parses to NaN |
| OrderedMaps.Put | src/services/ocrService.js:52 | assigning a key stores the value; a key already present keeps its place and a new key goes last |
| OrderedMaps.MapWithKey | src/services/medicalAnalysisService.js:33-99 | the object built by visiting every key in order has the same keys in the same order and the image of each entry |
| Lab.AbnormalKeys | src/services/medicalAnalysisService.js:222-224 | the filter keeps exactly the keys whose status is not 'Normal', in key order |
| OcrService.MatchLine | src/services/ocrService.js:48 | every match has a non-empty colon-free name, a non-empty run of digits and dots, a non-empty unit of non-blank non-`(` characters, and a non-empty range without `)` when one is captured |
| OcrService.SearchLeftmost | src/services/ocrService.js:48 | the search finds nothing exactly when no start position gives a match, and otherwise finds the match at the leftmost start that gives one |
| OcrService.LaterColonName | src/services/ocrService.js:48-52 | when no number follows the first colon, the name is the segment between the first colon and a later colon that a number follows (`Note: see below: 5 u` stores under `see below`) |
| OcrService.EntryOfMeaning | src/services/ocrService.js:51-56 | a match is stored under a key that is its name without outer white space, needs no further trimming and has no colon; the record is `parseFloat` of the number, the unit, and the captured range, which is 'Not provided' exactly when the group is absent or captured that text |
| OcrService.ParseBloodTestResults | src/services/ocrService.js:39-61 | the loop over the lines builds exactly the parsed report |
| OcrService.NoColonNoMatch | src/services/ocrService.js:48-50 | a line without a colon, such as a section header, never matches and so adds nothing |
| OcrService.AbsorbKeys | src/services/ocrService.js:46-58 | after the loop a name has an entry exactly when it had one before or some line matches with it |
| OcrService.AbsorbUntouched | src/services/ocrService.js:46-58 | a name that no line matches with keeps the record it had |
| OcrService.AbsorbLast | src/services/ocrService.js:46-58 | the last line that matches with a name decides that name's record |
| OcrService.ParseReportEntries | src/services/ocrService.js:39-61 | the report has an entry for a name exactly when some line matches with it, and that entry is the record of the last such line |
| OcrService.FormatLineParses | src/services/ocrService.js:48 | a line printed as `name: number unit (Ref: range)` matches with exactly that name, number, unit and range |
| OcrService.UnlabelledRangeIgnored | src/services/ocrService.js:48-55 | a parenthesised range without the `Ref:` label is not captured, so the record gets 'Not provided' |
| OcrService.LastDigitBecomesUnit | src/services/ocrService.js:48 | a line with a number and no unit still matches; backtracking gives the number's last character to the unit |
| OcrAnalysis.CatalogueThresholds | src/services/ocrService.js:85-126 | Hemoglobin is Low below 13.5 and High above 17.5 for 'male', and Low below 12.0 and High above 15.5 otherwise; Glucose is Low below 70 and High above 99; Cholesterol is Normal below 200, Borderline below 240, else High; any other test gets 'See reference' |
| OcrAnalysis.CatalogueInterpretations | src/services/ocrService.js:93-125 | Hemoglobin gets the normal, anemia or elevated sentence by status; Glucose that is neither Normal nor Low gets the diabetes sentence above 125 and the prediabetes sentence otherwise; Cholesterol gets the desirable, borderline or high sentence by status; every test outside the catalogue gets the generic advice |
| OcrAnalysis.SummaryText | src/services/ocrService.js:140-153 | the summary is the all-clear sentence exactly when no result is abnormal |
| OcrAnalysis.SummaryShape | src/services/ocrService.js:144-153 | with abnormal results the summary is the count sentence, then the glucose clause if it fires, then the hemoglobin clause if it fires, then the advice to consult |
| OcrAnalysis.Recommendations | src/services/ocrService.js:156-180 | always 3 or 6 items; the heart-health block comes first when Cholesterol or LDL is abnormal, and the glucose block last when Glucose is; the general advice is given exactly when neither applies |
| OcrAnalysis.AnalysisOfShape | src/services/ocrService.js:66-196 | the analysis fails with the fixed error exactly when a Hemoglobin entry meets an absent profile; otherwise it has the parsed keys in order and keeps every parsed record |
| OcrAnalysis.AnalyzeBloodResults | src/services/ocrService.js:66-196 | the classifying loop, the appended summary and the pushed recommendations give exactly the specified outcome |
| OcrAnalysis.ClassifyEach | src/services/ocrService.js:79-133 | the loop throws exactly when the tests include Hemoglobin and there is no profile, and otherwise stores every parsed test's classified record under its key, in key order |
| OcrAnalysis.BuildSummary | src/services/ocrService.js:136-153 | the summary appended clause by clause is the specified summary of the analysis |
| OcrAnalysis.AppendClauses | src/services/ocrService.js:145-152 | appending the count, the clauses that fire and the advice gives the specified summary text |
| OcrAnalysis.BuildRecommendations | src/services/ocrService.js:156-180 | pushing the blocks gives the specified recommendations |
| OcrAnalysis.UncataloguedIsAbnormal | src/services/ocrService.js:122-126 | every test outside the catalogue is counted abnormal, and an LDL entry always brings the heart-health advice |
| MedicalAnalysis.RangeBounds | src/services/medicalAnalysisService.js:38-51 | a range with `-` gives both bounds; otherwise one with `<` gives only a maximum; otherwise one with `>` gives only a minimum; a range with none of the three gives no bound |
| MedicalAnalysis.RangeStatus | src/services/medicalAnalysisService.js:54-62 | with both bounds the status is Low below the minimum, High above the maximum, Normal between them inclusive; with one bound only that side is checked; no bound gives Unknown; NaN bounds give Normal, and so does a NaN value when any bound is present |
| MedicalAnalysis.BasicStatus | src/services/medicalAnalysisService.js:37-65 | the status is Unknown exactly when the range is empty, 'Not provided', or has none of `-`, `<`, `>` |
| MedicalAnalysis.BasicInterpretation | src/services/medicalAnalysisService.js:67-93 | Hemoglobin gets the normal sentence when Normal, the anemia sentence when Low and the elevated sentence otherwise; Glucose that is neither Normal nor Low gets the diabetes sentence above 125 and the prediabetes sentence otherwise; any other test gets `Your <test>` followed by the within, below or above ending its status picks |
| MedicalAnalysis.AnalyseEntry | src/services/medicalAnalysisService.js:34-99 | the loop body with its mutable bounds and status gives the specified entry |
| MedicalAnalysis.PerformBasicAnalysis | src/services/medicalAnalysisService.js:29-103 | the loop classifies every parsed test, in key order |
| MedicalAnalysis.BasicAnalysisShape | src/services/medicalAnalysisService.js:29-103 | the analysis has exactly the parsed keys in order, and every entry keeps its value, unit and range and adds the status its range gives |
| MedicalAnalysis.RangeBoundsOfInterval | src/services/medicalAnalysisService.js:42-44 | a range `x-y` has the bounds `parseFloat(x)` and `parseFloat(y)` |
| MedicalAnalysis.RangeBoundsOfCeiling | src/services/medicalAnalysisService.js:45-47 | a range `<x` has only the maximum `parseFloat(x)` |
| MedicalAnalysis.RangeBoundsOfFloor | src/services/medicalAnalysisService.js:48-50 | a range `>x` has only the minimum `parseFloat(x)` |
| MedicalAnalysis.UnparseableRangeIsNormal | src/services/medicalAnalysisService.js:42-59 | a range `x-y` whose halves hold no number makes every value Normal, not Unknown |
| MedicalAnalysis.BasicSummary | src/services/medicalAnalysisService.js:221-231 | the summary is the all-clear sentence exactly when no status differs from 'Normal' |
| MedicalAnalysis.BasicSummaryCount | src/services/medicalAnalysisService.js:229 | with abnormal results the summary states their number, which reads back as that count |
| MedicalAnalysis.BasicRecommendations | src/services/medicalAnalysisService.js:234-252 | always three items: the general advice when nothing is abnormal, the follow-up advice otherwise |
| MedicalAnalysis.OverrideLaws | src/services/medicalAnalysisService.js:199-200 | the lab fields stay and a truthy reply field wins over the entry's; a reply entry with both fields falsy changes nothing; applying the same reply entry twice is applying it once; a reply entry with both fields truthy decides the result whatever came before |
| MedicalAnalysis.MergeKeysShape | src/services/medicalAnalysisService.js:193-203 | the merge keeps the analysis' keys in order and every record's lab fields, and never adds a test |
| MedicalAnalysis.MergeKeysThrows | src/services/medicalAnalysisService.js:196-201 | the merge throws exactly when some test of the reply that the analysis has maps to null |
| MedicalAnalysis.MergeKeysEntries | src/services/medicalAnalysisService.js:196-202 | a merge that does not throw overrides the entry of every test that both the reply and the analysis have, and leaves the others as they were |
| MedicalAnalysis.AIResultShape | src/services/medicalAnalysisService.js:183-218 | an undecodable reply gives the basic analysis with the generated summary and recommendations; otherwise the keys and lab fields are kept; a merge that throws on a null entry gives the generated summary and recommendations of the partly merged analysis, dropping the reply's; otherwise the reply's summary and recommendations are taken when truthy and generated from the merged analysis when not |
| MedicalAnalysis.ParseAIResponse | src/services/medicalAnalysisService.js:183-218 | the merging loop, which stops at a null entry, gives the specified report |
| MedicalAnalysis.AnalyzeBloodResults | src/services/medicalAnalysisService.js:5-26 | a null profile fails the analysis with the TypeError from building the prompt, whatever the request would have returned; otherwise a failed request fails it with its message, or the fixed error when there is none, and an answered one succeeds with the merged report over the basic analysis |
| MedicalAnalysis.MedicalInsightsLaws | src/services/medicalAnalysisService.js:320-344 | the insights always succeed; a failure reads exactly like a reply without either list; a list the reply has is taken as it is, even when empty; otherwise the fixed two-item list is used, so an empty list appears only when the reply sent one |
| StorageService.HistoryIn | src/services/storageService.js:114-115 | an absent or empty history slot reads as the empty list; a slot that does not hold a list cannot be spread |
| StorageService.Pushed | src/services/storageService.js:118 | the new item comes first, followed by the newest old items in order, and the list has at most ten items |
| StorageService.PushAllLength | src/services/storageService.js:118 | repeated saves grow the history by one each up to ten, and no further |
| StorageService.PushAllNewestFirst | src/services/storageService.js:118 | after repeated saves the history lists the saved items newest first |
| StorageService.Store.GetUserProfile | src/services/storageService.js:41-49 | the stored profile, or null when the slot is absent, empty or does not parse |
| StorageService.Store.HasUserProfile | src/services/storageService.js:55-57 | true exactly when the slot holds non-empty text, even text that does not parse |
| StorageService.Store.SaveUserProfile | src/services/storageService.js:21-35 | null and non-objects are refused and nothing changes; an object is stored and read back, and nothing else changes |
| StorageService.Store.GetCurrentAnalysis | src/services/storageService.js:83-91 | the stored session data, or null when the slot is absent, empty or does not parse |
| StorageService.Store.SaveCurrentAnalysis | src/services/storageService.js:64-77 | a falsy argument is refused and nothing changes; otherwise the data is stored and read back |
| StorageService.Store.SaveAnalysisToHistory | src/services/storageService.js:98-127 | an analysis without a summary, or a history that cannot be read, gives false and changes nothing; an absent or empty history slot starts a new list; otherwise the new item, titled 'Blood Test Results' by default, goes first and the history keeps at most ten items |
| StorageService.Store.GetRecentAnalyses | src/services/storageService.js:133-141 | the stored history, or the empty list when the slot is absent, empty or does not parse |
| StorageService.Store.GetAnalysisById | src/services/storageService.js:148-159 | the first history item with the id, or null when there is none or no readable history |
| StorageService.Store.ClearAllData | src/services/storageService.js:164-174 | the profile, history and session slots are removed and nothing else; afterwards there is no profile and the history reads empty |
| ResultsAnalysis.PageStatus | src/components/ResultsAnalysis.js:41-55 | Hemoglobin is Low below 12 and High above 16, Glucose Low below 70 and High above 100, Normal between them inclusive; every other parameter is Normal |
| ResultsAnalysis.PageInterpretation | src/components/ResultsAnalysis.js:51-54 | every parameter other than Hemoglobin and Glucose gets a within-range sentence naming it |
| ResultsAnalysis.PageSummary | src/components/ResultsAnalysis.js:64-78 | the abnormal parameters are exactly the non-Normal keys in key order, the count is their number, and the text is the all-clear sentence exactly when there are none |
| ResultsAnalysis.ViewOfErrors | src/components/ResultsAnalysis.js:13-30 | missing or empty session data gives the upload error whatever the profile; a missing or empty profile then gives the profile error; unreadable data gives the generic error; nothing is shown in these cases |
| ResultsAnalysis.ViewOfShown | src/components/ResultsAnalysis.js:36-78 | shown results have the parsed keys in order, keep every record and add the page's status, and the summary counts exactly the non-Normal parameters |
| ResultsAnalysis.AnalyseStoredResults | src/components/ResultsAnalysis.js:13-78 | the effect's checks and loop give exactly the specified view |
| ResultsAnalysis.AnalyseEach | src/components/ResultsAnalysis.js:36-62 | the `forEach` fills the analysed results with every parsed parameter's record and page status, in key order |
| SampleReport.HemoglobinLine | src/services/ocrService.js:21 | the sample's Hemoglobin line, added to any results, stores 'Hemoglobin' with value 14.2, unit 'g/dL' and range '13.5-17.5' |
| SampleReport.SampleParses | src/services/ocrService.js:20-28 | the sample report parses to its seven tests in order, with the values, units and ranges printed on their lines |
| SampleReport.InRangeNothingAbnormal | src/services/medicalAnalysisService.js:54-62 | results whose every status by their own range is Normal give an analysis whose abnormal list is empty |
| SampleReport.SampleAllClear | src/services/medicalAnalysisService.js:29-103 | the basic analysis of the sample finds every result Normal, so the fallback summary is the all-clear sentence with the general advice |
| SampleReport.CatalogueOfSampleEntries | src/services/ocrService.js:79-180 | the catalogue flags WBC, Platelets, HDL and LDL and not Hemoglobin, Glucose or Cholesterol, no summary clause fires, and the advice is the heart-health block alone |
| SampleReport.SampleCatalogue | src/services/ocrService.js:20-28 | with any profile, the catalogue analysis of the sample text succeeds but flags WBC although it is within its range, and gives the heart-health advice |

## Left out

- The request to the language-model service and its reply envelope are not modelled, nor the
  extraction of a JSON block from the reply and `JSON.parse`. The model starts from an already
  decoded reply (`Option<Reply>`, `Option<InsightsReply>`) and from a request outcome
  (`Exchange`).
- `buildMedicalAnalysisPrompt` and the insights prompt are prompt text for an external service
  and are not modelled. The one effect of the first that the model keeps is its read of
  `userProfile.age`, which throws for a null profile.
- MedicalAnalysis.AnalyzeBloodResults: the error text for a null profile is the TypeError message
  of V8-based browsers; other engines word it differently, and an undefined profile says
  `undefined` in place of `null`.
- `extractTextFromImage` and the simulated delays are asynchronous plumbing. The canned report
  text is used only as an input, in `SampleReport`.
- The `getMedicalInsights` in `src/services/ocrService.js` (lines 199-244) is not modelled. It
  makes no request: after a two-second delay it answers `success: true` with four fixed insights
  and four fixed follow-up questions. When reading `userProfile.age` throws (a null profile) it
  answers `success: false` with 'Failed to generate medical insights'. It has no logic of its own
  beyond that.
- `Date.now()` and `new Date().toISOString()`: the id and the date of a history item are
  parameters.
- JSON encoding in storage is abstracted. A slot holds a document, the empty text (falsy, read
  like an absent slot) or other unreadable text (`Corrupt`). Text that parses to something other
  than the three documents, such as `null` or a number, is not modelled. `NaN` values, which `JSON.stringify` writes as `null`, do not round-trip through
  real storage; in the model they do.
- Storage quota errors and unavailable storage, which make the save functions return false from
  their `catch`, are not modelled. Every write succeeds.
- Numbers are exact decimals plus NaN and the infinities. IEEE-754 rounding of `parseFloat` and of
  comparisons is not modelled.
- `Object.keys` puts integer-like keys first in JavaScript. The model keeps all keys in insertion
  order.
- `Object.prototype` names such as `constructor` are not treated specially when they are used as
  keys.
- Truthiness of the reply's fields is reduced to the cases the code can see. A missing or empty
  string is falsy, and a field of another type is not modelled.
- `OcrAnalysis.AnalysisOf`: a profile object whose `gender` is missing is read as the empty
  gender. That is not 'male', which is how the code treats it.
- The React rendering of the results page and the other components are not modelled.
