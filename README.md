# Insurance mail triage — a Dafny model

This project models the core of a small system that triages the mail of an
insurance brokerage.
- **Extraction.** An archive (a PST file) is walked folder by folder. Each
  message gets an id `email_NNNNNN`, and its attachments and metadata are
  saved. Progress is checkpointed so an interrupted run can resume.
- **Classification.** Each message is scored as a quote request
  (*cotización*), a renewal (*renovación*) or an endorsement (*endoso*).
  The scores come from keyword lists, the agent code and policy number
  found in the text, and the attachments. The best-scoring category
  becomes the message's primary type, or `sin_clasificar` when even the
  best score is under 30.
- **Dashboard.** A web dashboard summarises the results, filters and pages
  through them, and labels attachments by file name.
- **Reclassification.** A script reclassifies an existing results file.
  It keeps an entry whose message can no longer be classified and counts
  the entries that leave `sin_clasificar`.

Modules, one file each:

| module | file | what it holds |
|---|---|---|
| `Wrappers` | wrappers.dfy | `Option` and `Result` |
| `Text` | text.dfy | upper/lower case of the Latin-1 range, substring tests |
| `EmailIds` | email_ids.dfy | decimal rendering, zero padding, the `email_%06d` ids and their parser |
| `Entities` | entities.dfy | the agent-code and policy-number extractors (`\bKEYWORD\s+(\d+)`, case-insensitive, first pattern wins) |
| `Attachments` | attachments.dfy | the attachment buckets and the slip-completeness rule |
| `Scoring` | scoring.dfy | the three checklist scorers, their statuses and the endorsement subtype |
| `Classifier` | classifier.dfy | primary selection, `classify_email`, the `classify_all_emails` counters |
| `Extraction` | extraction.dfy | the archive tree, the extractor state machine (`class Extractor`) and its specification |
| `Dashboard` | dashboard.dfy | rows, summary, search filters, pagination, file-type labels |
| `Reclassify` | reclassify.dfy | `reclassify_all_emails` |

The two stateful parts are written imperatively.
- The extractor is a class whose methods update its fields. Each method
  ensures that the new state equals a specification function
  (`Step`, `RunVisits`, `Extraction`) applied to the old state.
  The lemmas prove the source's promises about those functions.
- The counting loops of the classifier and of the reclassification script
  are methods with loop invariants. Each is tied to a counting function.

The keyword regular expressions of `setup_patterns` are abstract tests
(`Config`). They keep their list order and the stop-at-first-match loop.
The entity extractors, the attachment buckets, the file-type table and
all weights, thresholds and status strings are written out concretely.

## Model

| member | source | states |
|---|---|---|
| Text.Upper | email_classifier.py:205 | `str.upper` on the Latin-1 range: a string without ß keeps its length and each character goes through the one-character upper-case table; no lower-case letter is left; with `UpperOne` and `UpperAppend` this fixes the result on every string, ß included |
| Text.UpperOne | email_classifier.py:205 | one character upper-cases to its `str.upper` form, so ß becomes `SS` |
| Text.UpperAppend | email_classifier.py:205 | upper-casing a concatenation upper-cases each part |
| Text.UpperIdempotent | email_classifier.py:267-268 | upper-casing an upper-cased subject or body changes nothing |
| Text.Lower | web_app.py:253 | `str.lower` keeps the length and maps each character through the Latin-1 lower-case table (Ÿ to ÿ and Μ to μ as well) |
| Text.LowerUndoesUpper | web_app.py:253 | lower-casing the upper case of a Latin-1 lower-case letter gives the letter back, ÿ (through Ÿ) included |
| Text.UpperChar | email_classifier.py:267-268 | the one-character upper case keeps a character a word character (Python's `\w`, which also holds ¹ ² ³ ¼ ½ ¾ and Ÿ, Μ, the upper cases of ÿ and µ) or a non-word one, so `\b` boundaries survive upper-casing; only ß gives ß |
| Text.ContainsIff | email_classifier.py:208 | the substring test `w in s` holds exactly when `w` occurs at some position of `s` |
| EmailIds.Decimal | pst_extractor.py:273 | the decimal rendering is a non-empty digit string without a leading zero |
| EmailIds.ParseDecimalOfDecimal | pst_extractor.py:273 | reading back the decimal rendering gives the number |
| EmailIds.FormatIdRoundTrip | pst_extractor.py:273 | the id `email_` + 6-digit zero-padded count parses back to the count |
| EmailIds.FormatIdInjective | pst_extractor.py:272-273 | two counts give the same id exactly when they are equal |
| EmailIds.FormatIdFixedWidth | pst_extractor.py:273 | below one million every id is exactly 12 characters |
| EmailIds.FormatId | pst_extractor.py:273 | the id `email_` + the count padded to 6 digits; its round trip and injectivity are `FormatIdRoundTrip` and `FormatIdInjective` |
| EmailIds.ParseId | pst_extractor.py:273 | reads an id back to its count; the inverse that `FormatIdRoundTrip` pairs with `FormatId` |
| EmailIds.ZeroPad | pst_extractor.py:273 | `:06d` puts zeros in front up to the width and keeps the digits after them; a longer string is left whole |
| Entities.SpaceRun | email_classifier.py:114-115 | `\s+` consumes the maximal run of white space |
| Entities.DigitRun | email_classifier.py:114-115 | `(\d+)` captures the maximal run of digits |
| Entities.SpellingAt | email_classifier.py:126-131 | a keyword matches at a position exactly when one of its spellings is there |
| Entities.MatchAt | email_classifier.py:114-121 | a match starts after a `\b` (Python's `\w` on Latin-1) and captures a non-empty string of digits |
| Entities.SearchFromNone | email_classifier.py:119 | `re.search` finds nothing exactly when no position matches |
| Entities.SearchFromLeftmost | email_classifier.py:119-121 | `re.search` returns the match at the leftmost matching position |
| Entities.ExtractFirstWins | email_classifier.py:111-137 | the extractors return `""` iff no pattern matches, else the digits of the first pattern in list order that matches |
| Entities.ExtractAgentCode | email_classifier.py:111-122 | the digits after `AGENTE` when that pattern matches anywhere, else those after `AG`, else `""`; only digits |
| Entities.ExtractPolicyNumber | email_classifier.py:124-137 | `""` iff none of the four patterns matches; else the digits of the first pattern in list order that matches |
| Entities.NoBoundaryAfterUpperY | email_classifier.py:267-280 | the subject "ÿAG 12" yields no agent code: upper-casing gives Ÿ, a word character, so no `\b` precedes `AG` |
| Entities.SubjectThenBody | email_classifier.py:280 | the subject's code is taken when non-empty, else the body's (also lines 355 and 444) |
| Attachments.BucketPrecedence | email_classifier.py:207-251 | each name lands in exactly one bucket: slip spreadsheet > other spreadsheet > quote PDF > policy PDF > renewal PDF > endorsement PDF |
| Attachments.BucketOf | email_classifier.py:207-251 | the elif chain on the upper-cased name; the precedence is stated by `BucketPrecedence` |
| Attachments.SharpSSlip | email_classifier.py:205-208 | the attachment "ßlip.xlsx" is a slip sheet: upper-casing turns ß into `SS`, so the name holds `SLIP` |
| Attachments.FileCount | email_classifier.py:203-204 | only regular files are counted |
| Attachments.Absorb | email_classifier.py:203-227 | one file adds one to the total, sets `has_slip` for a slip, and sets `slip_complete` to "more than 5 filled cells" when the workbook loads |
| Attachments.SummaryCount | email_classifier.py:204 | `total_attachments` counts every regular file in the directory |
| Attachments.Summary | email_classifier.py:202-251 | the fold over the directory listing; its fields are stated by `SummaryCount`, `SummaryLists`, `SummarySlip` and `SummaryFields` |
| Attachments.Analysis | email_classifier.py:184-253 | the all-empty default for a missing directory, else `Summary` of the listing |
| Attachments.SummaryLists | email_classifier.py:209-251 | each bucket's list holds the names of the files in that bucket, in listing order |
| Attachments.SummarySlip | email_classifier.py:208-227 | `has_slip` iff some slip was seen; `slip_complete` is the verdict of the last slip whose workbook loaded |
| Attachments.SummaryFields | email_classifier.py:184-253 | all nine fields of the analysis, in terms of the directory listing |
| Attachments.AnalyzeAttachments | email_classifier.py:184-253 | the loop over the directory computes the analysis; a missing directory gives the all-empty default |
| Attachments.BucketsWithinTotal | email_classifier.py:202-251 | the bucketed files plus the unbucketed ones are exactly the counted files |
| Attachments.SlipVerdictWitness | email_classifier.py:220-224 | a complete verdict comes from a slip file that loaded with more than 5 filled cells |
| Attachments.SingleSlipVerdict | email_classifier.py:224 | for a single slip, complete iff its filled cells exceed 5 |
| Scoring.FirstMatch | email_classifier.py:273-277 | the first pattern that matches, and none before it; none iff no pattern matches |
| Scoring.SumWeightsAppend | email_classifier.py:270-317 | the score of concatenated criteria is the sum of the scores |
| Scoring.Add | email_classifier.py:275-276 | a criterion is added together with its weight, or nothing changes |
| Scoring.Run | email_classifier.py:270-317 | running a checklist keeps the score equal to the weights of the met criteria |
| Scoring.RunCounts | email_classifier.py:270-317 | each criterion is added once per checklist entry when it holds, never otherwise |
| Scoring.RunBounds | email_classifier.py:270-317 | the score lies between the sum of the negative and of the positive weights |
| Scoring.RunMembers | email_classifier.py:270-317 | the criteria met are exactly the listed criteria that hold |
| Scoring.RunNoDuplicates | email_classifier.py:273-277 | no criterion is recorded twice |
| Scoring.RunScore | email_classifier.py:270-317 | the score is the sum of the weights of the holding entries |
| Scoring.GainedShift | email_classifier.py:313-315 | turning one criterion on adds its weight once per occurrence |
| Scoring.RunShift | email_classifier.py:313-315 | turning one listed criterion on changes the score by exactly its weight |
| Scoring.QuoteGains | email_classifier.py:273-311 | the quote weights 30 + 20 + 15 + 25 + 15 + 20 sum to 125 |
| Scoring.QuoteLosses | email_classifier.py:313-315 | the quote contra-indicators sum to −15 |
| Scoring.QuoteDistinct | email_classifier.py:270-317 | each quote criterion is listed once |
| Scoring.QuoteOnce | email_classifier.py:270-317 | a listed quote criterion occurs once |
| Scoring.QuoteHoldsListed | email_classifier.py:270-317 | every quote criterion that can hold is on the checklist |
| Scoring.QuoteTally | email_classifier.py:270-316 | the raw quote score lies in [−15, 125] and the criteria met are exactly those that hold |
| Scoring.QuoteResult | email_classifier.py:317-318 | confidence = min(100, score) in [−15, 100]; met iff the score is at least 40 |
| Scoring.QuoteCriteriaListed | email_classifier.py:270-316 | `criteria_met` lists each holding quote criterion once |
| Scoring.QuoteStatusCases | email_classifier.py:294-321 | complete/pending depend only on the slip; "Cotización detectada" iff met without a slip; "" otherwise |
| Scoring.QuoteSignalsOf | email_classifier.py:267-316 | the quote signals read from the upper-cased subject and body and the attachment analysis |
| Scoring.QuoteStatus | email_classifier.py:294-321 | the quote status; its cases are `QuoteStatusCases` |
| Scoring.ClassifyQuote | email_classifier.py:255-329 | `classify_cotizacion`: signals, then the scored result; stated by `QuoteTally` and `QuoteResult` |
| Scoring.QuotePolicyHolding | email_classifier.py:313-315 | a policy PDF adds exactly the policy-document criterion |
| Scoring.QuotePolicyShift | email_classifier.py:313-315 | that criterion lowers the quote score by exactly 15 |
| Scoring.QuotePolicyPenalty | email_classifier.py:313-318 | all else equal, a policy PDF lowers the quote score by 15 and raises the bar for being met accordingly |
| Scoring.RenewalGains | email_classifier.py:348-376 | the renewal weights 35 + 20 + 15 + 25 + 20 sum to 115 |
| Scoring.RenewalLosses | email_classifier.py:379-381 | the renewal contra-indicator is −20 |
| Scoring.RenewalDistinct | email_classifier.py:345-382 | each renewal criterion is listed once |
| Scoring.RenewalOnce | email_classifier.py:345-382 | a listed renewal criterion occurs once |
| Scoring.RenewalHoldsListed | email_classifier.py:345-382 | every renewal criterion that can hold is on the checklist |
| Scoring.RenewalTally | email_classifier.py:345-382 | the raw renewal score lies in [−20, 115] and the criteria met are exactly those that hold |
| Scoring.RenewalResult | email_classifier.py:383-384 | confidence = min(100, score) in [−20, 100]; met iff the score is at least 40 |
| Scoring.RenewalCriteriaListed | email_classifier.py:345-382 | `criteria_met` lists each holding renewal criterion once |
| Scoring.RenewalStatusCases | email_classifier.py:386-391 | status is set only when met: complete iff attachments > 0 and a policy number was found |
| Scoring.RenewalSignalsOf | email_classifier.py:337-382 | the renewal signals read from the upper-cased subject and body and the attachment analysis |
| Scoring.RenewalStatus | email_classifier.py:386-391 | the renewal status; its cases are `RenewalStatusCases` |
| Scoring.ClassifyRenewal | email_classifier.py:331-399 | `classify_renovacion`: signals, then the scored result; stated by `RenewalTally` and `RenewalResult` |
| Scoring.RenewalGuardHolding | email_classifier.py:379-381 | a quote PDF without RENOVACION in the subject adds exactly the guard criterion |
| Scoring.RenewalGuardShift | email_classifier.py:379-381 | that criterion lowers the renewal score by exactly 20 |
| Scoring.RenewalQuotePenalty | email_classifier.py:379-384 | all else equal, the guard lowers the renewal score by 20 and raises the bar for being met accordingly |
| Scoring.EndorsementSubtype | email_classifier.py:426-433 | subtype A if `ENDOSO A` is in the subject; else B if `ENDOSO B`; else BP if `ENDOSO DE BP`; else ESPECIAL if `ENDOSO ESPECIAL`; else "" (each case an iff) |
| Scoring.EndorsementSignalsOf | email_classifier.py:419-456 | a subtype is set only when a subject pattern matched; backing documents need a policy PDF |
| Scoring.EndorsementGains | email_classifier.py:419-458 | the endorsement weights 35 + 15 + 25 + 20 + 15 sum to 110 |
| Scoring.EndorsementLosses | email_classifier.py:416-461 | endorsement has no negative weight |
| Scoring.EndorsementDistinct | email_classifier.py:416-458 | each endorsement criterion is listed once |
| Scoring.EndorsementHoldsListed | email_classifier.py:416-458 | every endorsement criterion that can hold is on the checklist |
| Scoring.EndorsementTally | email_classifier.py:416-458 | the raw endorsement score lies in [0, 110] and the criteria met are exactly those that hold |
| Scoring.EndorsementResult | email_classifier.py:460-461 | confidence = min(100, score) in [0, 100]; met iff the score is at least 30 |
| Scoring.EndorsementCriteriaListed | email_classifier.py:416-458 | `criteria_met` lists each holding endorsement criterion once |
| Scoring.EndorsementStatusCases | email_classifier.py:463-468 | status is set only when met: complete iff a policy number and an endorsement or policy PDF are present |
| Scoring.EndorsementStatus | email_classifier.py:463-468 | the endorsement status; its cases are `EndorsementStatusCases` |
| Scoring.ClassifyEndorsement | email_classifier.py:401-476 | `classify_endoso`: signals, then the scored result; stated by `EndorsementTally` and `EndorsementResult` |
| Classifier.Insert | email_classifier.py:507 | insertion keeps the elements and puts the new one first only when it beats the head |
| Classifier.InsertSorted | email_classifier.py:507 | inserting into a list sorted by descending confidence keeps it sorted |
| Classifier.SortDesc | email_classifier.py:507 | the sort is a permutation, sorted by descending confidence |
| Classifier.FirstMax | email_classifier.py:507-509 | the position of the maximum confidence, earliest among ties |
| Classifier.SortDescHead | email_classifier.py:507-509 | the head of the stable descending sort is the first maximum in list order |
| Classifier.PrimarySelection | email_classifier.py:500-525 | the primary confidence is the maximum of the three; its type is `sin_clasificar` iff that maximum is below 30; ties go to cotizacion, then renovacion, then endoso |
| Classifier.PrimaryOf | email_classifier.py:500-525 | the primary classification of the three results; stated by `PrimarySelection` and `SortDescHead` |
| Classifier.ClassifyEmail | email_classifier.py:478-528 | an error (with its message) iff the metadata is missing; otherwise the result carries the message's id |
| Classifier.Kept | email_classifier.py:544-552 | the aggregator keeps one result for a stem iff it is not `progress` and has metadata |
| Classifier.Classified | email_classifier.py:544-552 | at most one result per listed stem |
| Classifier.CountType | email_classifier.py:556-558 | a type count never exceeds the number of results |
| Classifier.CountTypeAppend | email_classifier.py:556-558 | one more result adds one to the counter of its own type only |
| Classifier.Record | email_classifier.py:551-558 | appending a result keeps the total and all four counters equal to the counts over the kept results |
| Classifier.ClassifyAll | email_classifier.py:530-565 | an error when the metadata directory is missing; otherwise the kept results in listing order, with consistent counters |
| Classifier.CountsSumToTotal | email_classifier.py:533-558 | the four counters sum to `total_emails` |
| Classifier.ClassifiedSkips | email_classifier.py:544-552 | the progress file and ids without metadata never reach the results; every result comes from a listed stem |
| Extraction.AttachmentCount | pst_extractor.py:88-96 | the count from the method, else the property, else 0; `None` (so `[]`) when reading it raises |
| Extraction.FileNameOf | pst_extractor.py:106-111 | `name`, else `long_filename`, else `attachment_` followed by the index |
| Extraction.SavedUpTo | pst_extractor.py:98-130 | at most one entry per attachment index |
| Extraction.AttachmentsOf | pst_extractor.py:82-134 | `[]` when the count cannot be read; never more entries than the count |
| Extraction.SavedSplit | pst_extractor.py:98-130 | the saved list is built index by index, in index order |
| Extraction.SavedBetweenAgree | pst_extractor.py:98-130 | the entries of a range depend only on the attachments in that range |
| Extraction.FailureSkipsOnlyThatEntry | pst_extractor.py:116-130 | a failure on one attachment removes only that entry; the others are unchanged and in order |
| Extraction.OneEntryPerReadable | pst_extractor.py:98-130 | one entry per present, readable attachment, so duplicate file names stay separate entries |
| Extraction.Named | pst_extractor.py:214-216 | nameless folders do not add a path component |
| Extraction.NamedAppend | pst_extractor.py:214-216 | a named child adds its name, a nameless one nothing |
| Extraction.JoinAppend | pst_extractor.py:216 | a child's path is the parent path, `/`, the name |
| Extraction.ChildPathJoins | pst_extractor.py:214-216 | the folder path is the `/`-join of the names of the named folders on the way down |
| Extraction.ChildPath | pst_extractor.py:214-216 | the folder name: the parent path, `/` and the name, or either alone; stated by `ChildPathJoins` |
| Extraction.JoinNonEmpty | pst_extractor.py:216 | a path that starts with a name is not empty |
| Extraction.MessageVisits | pst_extractor.py:229-234 | the present messages of a folder are visited in index order, with the folder's path |
| Extraction.PreOrder | pst_extractor.py:229-266 | a folder's own messages come before those of its subfolders |
| Extraction.Visits | pst_extractor.py:212-266 | the messages `process_folder` visits, in pre-order; stated by `MessageVisits` and `PreOrder` |
| Extraction.LoadProgress | pst_extractor.py:35-48 | the stored progress when readable, else the empty default |
| Extraction.RecordOf | pst_extractor.py:284-299 | the stored record carries the id, the folder, the `.eml` path when written, and the saved attachments |
| Extraction.Saved | pst_extractor.py:50-56 | saving sets `total_processed` to the counter and `last_update` to now, and writes the progress; nothing else changes |
| Extraction.Started | pst_extractor.py:322-323 | `start_time` is set only when unset |
| Extraction.StepSkipsProcessed | pst_extractor.py:272-277 | an id already processed is skipped: only the counter moves |
| Extraction.StepEffect | pst_extractor.py:270-310 | the counter always advances; the id is appended and the record stored iff the files were written, else nothing changes |
| Extraction.StepCheckpoint | pst_extractor.py:305-307 | progress is saved after a stored message exactly when the counter is a multiple of 10 |
| Extraction.Step | pst_extractor.py:270-310 | `process_message` on one state; stated by `StepSkipsProcessed`, `StepEffect` and `StepCheckpoint` |
| Extraction.RunVisits | pst_extractor.py:229-266 | the visited messages processed one after the other; stated by the `Run…` lemmas |
| Extraction.RunVisitsAppend | pst_extractor.py:212-266 | processing two runs of messages is processing them one after the other |
| Extraction.RunVisitsSnoc | pst_extractor.py:231-234 | one more message is one more step |
| Extraction.RunCount | pst_extractor.py:272 | every visited message consumes one id |
| Extraction.RunAppendsOwnIds | pst_extractor.py:272-302 | earlier ids are kept; each new id parses to a counter value of this run and has a stored record |
| Extraction.RunIdsIncrease | pst_extractor.py:272-302 | ids appended within a run strictly increase |
| Extraction.RunNoDuplicates | pst_extractor.py:276-302 | no id is appended twice |
| Extraction.RunStartTime | pst_extractor.py:270-310 | processing messages never touches `start_time` |
| Extraction.ExtractionStartTime | pst_extractor.py:312-345 | once the archive opens (whether or not its root can be read), `start_time` is the old one if set, else now; an archive that does not open leaves it unchanged |
| Extraction.ExtractionSaves | pst_extractor.py:331-344 | a run always ends with a save: the file holds the progress, `total_processed` equals the counter |
| Extraction.Extraction | pst_extractor.py:312-345 | `extract` on one state, for the three archive outcomes; stated by `ExtractionStartTime` and `ExtractionSaves` |
| Extraction.Extractor.constructor | pst_extractor.py:19-33 | a new extractor starts at count 0 with the loaded progress |
| Extraction.Extractor.SaveProgress | pst_extractor.py:50-56 | the new state is `Saved` of the old one |
| Extraction.Extractor.ExtractAttachments | pst_extractor.py:82-134 | the loop returns exactly `AttachmentsOf` |
| Extraction.Extractor.ProcessMessage | pst_extractor.py:270-310 | the new state is `Step` of the old one |
| Extraction.Extractor.ProcessMessages | pst_extractor.py:229-234 | the new state is the old one run through the folder's message visits |
| Extraction.Extractor.ProcessFolder | pst_extractor.py:212-268 | the new state is the old one run through the folder's pre-order visits |
| Extraction.Extractor.ProcessSubfolder | pst_extractor.py:263-266 | one present subfolder is processed with the parent's path |
| Extraction.Extractor.ProcessSubfolders | pst_extractor.py:255-268 | subfolders are processed in index order |
| Extraction.Extractor.Extract | pst_extractor.py:312-345 | success iff the archive opens and its root can be read; the new state is `Extraction` of the old one |
| Dashboard.RowsOf | web_app.py:53-73 | one row per result, in order |
| Dashboard.RowOf | web_app.py:55-73 | the row built from one result |
| Dashboard.LoadRows | web_app.py:40-75 | no rows without a results file, else one per result |
| Dashboard.CountClass | web_app.py:97-100 | a type count never exceeds the number of rows |
| Dashboard.CountWithAttachments | web_app.py:101 | never exceeds the number of rows |
| Dashboard.CountWithSlip | web_app.py:102 | never exceeds the number of rows |
| Dashboard.CountCompleteSlip | web_app.py:103 | never exceeds the number of rows |
| Dashboard.SummaryStats | web_app.py:88-106 | `{}` iff there are no rows; otherwise `total_emails` is the row count |
| Dashboard.TypeCountsWithinTotal | web_app.py:97-100 | the four type counts together never exceed the row count |
| Dashboard.SummaryWithinTotal | web_app.py:95-104 | the summary's type counts sum to at most its total; slip counts are within the total |
| Dashboard.CountClassOfResults | web_app.py:64-100 | counting rows by type name counts the results by primary type |
| Dashboard.TypeNameInjective | email_classifier.py:500-521 | distinct primary types have distinct names |
| Dashboard.TypeNames | email_classifier.py:501-521 | the four type names |
| Dashboard.SummaryCounts | web_app.py:97-100 | each type counter is the number of rows with that `classification_type` |
| Dashboard.SummaryOfResults | web_app.py:88-104 | on a results file the classifier wrote, the summary matches the classifier's counters and the four type counts sum to the total |
| Dashboard.Select | web_app.py:187-206 | a filter only removes rows |
| Dashboard.MatchesText | web_app.py:187-192 | the query test on one column (subject or sender name): the lower-cased query is a substring of the lower-cased value |
| Dashboard.StageSingle | web_app.py:187-206 | a switched-off filter keeps a row; a switched-on one keeps it iff it passes |
| Dashboard.FilteredSingle | web_app.py:184-206 | the chain keeps a single row iff it passes every switched-on filter |
| Dashboard.FilteredSnoc | web_app.py:184-206 | the filter chain works row by row |
| Dashboard.FilteredIsKept | web_app.py:184-206 | filtering step by step is one pass with the combined test, order preserved |
| Dashboard.Filtered | web_app.py:184-206 | the filter chain as the source runs it; equal to `KeptRows` by `FilteredIsKept` |
| Dashboard.KeptRows | web_app.py:184-206 | the reference: one pass with the combined test; its members are `KeptMembers` |
| Dashboard.KeptMembers | web_app.py:184-206 | a row is in the result iff it is in the table and passes every switched-on filter |
| Dashboard.NoFilterKeepsAll | web_app.py:187-202 | empty query, `""`/`all` type and folder and no attachment filter keep the whole table |
| Dashboard.FloorDiv | web_app.py:216 | Python's `//` rounds toward negative infinity |
| Dashboard.ClipIndex | web_app.py:221 | `iloc` slice bounds: negatives count from the end, then clip to the length |
| Dashboard.PySlice | web_app.py:221 | `iloc[lo:hi]` with the bounds normalised by `ClipIndex` |
| Dashboard.PageCount | web_app.py:216 | `(total + per_page − 1) // per_page`; the ceiling by `PageCountIsCeiling` |
| Dashboard.PageOf | web_app.py:217-221 | the requested page; the clipped range by `PageIsClippedRange` |
| Dashboard.PageCountIsCeiling | web_app.py:216 | `pages` is the ceiling of total / per_page (0 for no rows) |
| Dashboard.PaginationOf | web_app.py:233-244 | `has_prev` iff page > 1, `has_next` iff page < pages; `prev_page`/`next_page` are None otherwise |
| Dashboard.PageIsClippedRange | web_app.py:217-221 | a page is rows [(page−1)·per_page, page·per_page) clipped to the length |
| Dashboard.PageWithinCount | web_app.py:216-217 | the page holding a row is between 1 and `pages` |
| Dashboard.EntryOfPage | web_app.py:217-221 | entry m of a page is row (page−1)·per_page + m |
| Dashboard.PageEntry | web_app.py:217-221 | row i is entry i mod per_page of page i div per_page + 1 |
| Dashboard.RowOnItsPage | web_app.py:214-221 | every filtered row is reachable on a page no later than the last one |
| Dashboard.SearchEmails | web_app.py:182-245 | an error iff the table is empty and a filter is on (the missing column of the first such filter) or `per_page` is 0; otherwise the requested page of the rows passing every filter, with pagination as `PaginationOf` |
| Dashboard.FilterColumn | web_app.py:187-206 | the column the first switched-on filter reads: `subject` iff there is a query |
| Dashboard.Extension | web_app.py:253 | POSIX `splitext`: the suffix from the last dot of the last path component, with some character other than a dot before it in that component; empty iff no dot qualifies |
| Dashboard.ExtensionFrom | web_app.py:253 | the same characterisation, for a prefix of the name |
| Dashboard.TableLookup | web_app.py:264-308 | the first table row listing the extension, or none iff no row lists it |
| Dashboard.FileTypeOf | web_app.py:247-333 | the reported extension is that of the lower-cased name |
| Dashboard.TableRowsDisjoint | web_app.py:264-308 | no extension is listed by two table rows |
| Dashboard.KeywordPriority | web_app.py:310-331 | SLIP > POLIZA/POLICY > COTIZACION/QUOTE > ENDOSO/ENDORSEMENT in the upper-cased name override the extension |
| Dashboard.KeywordOverride | web_app.py:310-331 | the category a keyword in the upper-cased name forces; its order is `KeywordPriority` |
| Dashboard.ExtensionDecides | web_app.py:255-308 | without a keyword the extension's row decides; an unlisted extension gives Documento / bg-secondary |
| Reclassify.StatsSumToTotal | reclassify_emails.py:81-106 | the four counters sum to the number of entries |
| Reclassify.StatsOf | reclassify_emails.py:34-44 | the four counters over the entries; they sum to the count by `StatsSumToTotal` |
| Reclassify.CountTypes | reclassify_emails.py:34-91 | the counting loop computes the per-type counts |
| Reclassify.Redo | reclassify_emails.py:61-78 | the new entry keeps the id; on error it is the old entry; otherwise it is `classify_email`'s result |
| Reclassify.RedoAll | reclassify_emails.py:54-78 | one new entry per old entry |
| Reclassify.ImprovedCount | reclassify_emails.py:64-71 | never more improvements than entries |
| Reclassify.RedoAllAt | reclassify_emails.py:54-78 | entry i of the output is the reclassification of input entry i, with the same id |
| Reclassify.RedoIdempotent | reclassify_emails.py:61-78 | reclassifying a reclassified entry changes nothing |
| Reclassify.RedoAllIdempotent | reclassify_emails.py:54-78 | a second run over the output gives the same entries |
| Reclassify.SecondRunImprovesNothing | reclassify_emails.py:64-71 | a second run counts no improvement |
| Reclassify.ImprovedWithinUnclassified | reclassify_emails.py:69-70 | only entries that were `sin_clasificar` can improve |
| Reclassify.UnclassifiedFallsByImproved | reclassify_emails.py:64-91 | the `sin_clasificar` count falls by at most the number of improvements |
| Reclassify.KeptIsFixed | reclassify_emails.py:62-75 | an entry the aggregator kept is what `classify_email` gives again |
| Reclassify.ClassifiedIsFixed | reclassify_emails.py:54-78 | a results file just written by `classify_all_emails` for the same mailbox comes out unchanged |
| Reclassify.ReclassifyOne | reclassify_emails.py:61-78 | one turn of the loop: the new entry and whether it improved |
| Reclassify.ReclassifyEntries | reclassify_emails.py:50-78 | the loop yields the new entries in input order and the improvement count |
| Reclassify.ReclassifyAllEmails | reclassify_emails.py:24-117 | nothing when the file is missing; else before/after counts, new entries, improvements, the summary with `total_emails` = number of entries, and the old file as backup |

## Left out

- File and directory I/O, JSON, and the PST library are not modelled.
  - The archive is a tree datatype whose probes say whether a count or a read raises.
  - The mailbox the classifier reads is a set of maps.
  - Results files are values passed in and returned.
- `datetime.now()` is a `now` string parameter. The backup file name built from the time is not modelled.
- The keyword regular expressions of `setup_patterns` are abstract tests in `Config`. Their list order and first-match loop are kept; the pattern texts are not.
- Case mapping and `\w` cover the Latin-1 range, plus Ÿ and Μ (the upper cases of ÿ and µ, which `lower` maps to ÿ and μ). Other characters, μ included, are left unchanged by `upper`/`lower` and count as non-word characters; Python's full Unicode tables and `re.IGNORECASE` case folding are not modelled.
- MIME parsing, HTML-to-text (BeautifulSoup) and openpyxl are not modelled. The body text (`combined_text`) is an input, and a workbook is "loaded with n filled cells" or "unreadable".
- `extract_email_content`, `create_eml_file` and `extract_metadata` are represented only by what the rest of the code reads from them: subject, sender name, folder, whether writing fails.
- A message's `subject` of `None` is not modelled; subjects are strings.
- Extraction.Extractor.ProcessFolder: does not model the fallback loop of `process_folder`. That loop runs after any exception in the message block, including `get_sub_message(k)` raising part-way. It then visits messages 0..k−1 again under new ids, and it stops at the first falsy message instead of skipping it. The message and subfolder count probes are not modelled either; the folder's lists are taken as given and every read succeeds.
- Extraction.Extractor.ProcessMessage: when the metadata write fails after the `.eml` and attachments were written, the model records no change. The files already on disk are not modelled.
- Dashboard.Extension: models POSIX `os.path.splitext`, where only `/` separates path components; on Windows `\` separates them too.
- Dashboard.MatchesText: `str.contains(query, case=False)` treats the query as a regular expression; the model treats it as a literal substring.
- The date filters of `search_emails` and the `mime_type` field of `get_file_type_info` (via `mimetypes.guess_type`) are not modelled.
- `generate_report` (float percentages, and it divides by zero with no emails), `create_charts` (plotly), `get_email_content`, the Flask routes and the ZIP download are not modelled.
- The classification `details` dictionaries and `client_name` (always `""`) are not modelled.
- `classification_criteria` in the rewritten results file is a constant block of text and is not modelled.
- Reclassify.ReclassifyAllEmails: stored entries are modelled as classifier results, so every `type` is one of the four known names and the `in stats_before` guard always holds. Other fields of the stored file are not modelled.
- The debugging scripts, the interactive command line and the configuration and deployment glue are not part of this model.
