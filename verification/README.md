# Conjunction triage core in Dafny

This project models the risk-triage core of a space-conjunction dashboard.
The dashboard ingests conjunction data messages (CDMs). These are close-approach
reports between two space objects. It classifies each message into one of three
triage lanes, `ANALYTIC_OK`, `MC_REQUIRED` and `ACTION_NOW`, and keeps the
events in a store keyed by id. The model covers these parts:

- the record types (`Types`);
- the lane classifier `applyPolicy` (`Policy`);
- the row parser `parseCsvLine` (`CsvRow`);
- the streaming importer `parseAndImportCdmFile`. It is modelled twice: as a
  fold over decoded chunks (`Ingestion.Import`), and as the loop it is in the
  source (`Ingestion.ParseAndImportCdmFile`).
- chunk independence of the import (`Chunking`);
- the import with the real row parser plugged in (`CsvImport`);
- the store's `bulkPut` and `clear` (`EventStore`);
- the application's re-triage, update, Nightmare view and initial load (`App`);
- the dashboard filter and lane counts (`Dashboard`);
- the interval arithmetic at the end of the Monte Carlo estimate (`MonteCarlo`).

Helper modules:

- `Numbers`: JavaScript numbers as `Fin(real) | NaN`. Every comparison
  involving NaN is false.
- `Text`: `trim`, ASCII `toLowerCase`, `includes`, one-character `split` and
  `join`.
- `Seqs`: `filter`, subsequences and flattening.
- `Wrappers`: `Option`.

Everything outside the pure logic is an input. That covers the clock,
`parseFloat`, `Date.parse`/`toISOString` and the random per-row placeholders.
`Policy.ApplyPolicy` takes the hours from now to the TCA as a number. The
list operations take a `Clock` from a TCA string to those hours. The row
parser takes an `Environment` record. The importer is generic over the row
parser (`Ingestion.RowParsers`). `Ingestion.CsvRows` instantiates it with
`parseCsvLine`.

The importer's effects are recorded in a log of `Save(batch)` and
`Progress(percent)` entries, in the order they happen. A second log records the
lines handed to the row parser.

Four behaviours of the code are worth knowing; the model keeps each of them as
the code does it:

- A `tca` without `T` that `Date.parse` rejects is kept as written. It is not
  replaced by "now" (`CsvRow.NormalizeTca`).
- The flush test runs once per chunk, not once per row. The buffer can
  therefore exceed 1000 events inside a chunk. A file that arrives as one chunk
  of 10000 rows is written in a single save, not ten (`Ingestion.ImportOutcome`
  bounds the saves by the number of chunks plus one).
- A first chunk whose first line is empty is skipped whole. This drops the lines
  in that chunk and its progress report, and makes the result depend on how
  the text is cut into chunks (`Chunking.EmptyFirstLineDependsOnChunking`).
- A file without any line break has no header row. Its one line is parsed as
  data against an empty header list, so a file that holds only a header line
  imports one event (`CsvImport.SingleLineFileIsOneRow`).

## Model

| member | source | states |
|---|---|---|
| Types.Severity | types.ts:1-5 | a lane is one of exactly three values, ordered ANALYTIC_OK < MC_REQUIRED < ACTION_NOW |
| Policy.ApplyPolicy | services/dataService.ts:27-68 | each gate's `passed` is exactly `value < threshold` for its own threshold; every field but the gate flags and the lane is copied; the lane is ACTION_NOW iff the TCA is inside the warning window and `pcAnalytic > 1e-3` or `pcMc > pcRedThreshold`; otherwise MC_REQUIRED iff `pcAnalytic >= pcRedThreshold` or a gate fails; otherwise ANALYTIC_OK |
| Policy.ApplyPolicyIdempotent | services/dataService.ts:27-68 | under the same policy and clock, classifying a classified event changes nothing |
| Policy.ApplyPolicyIgnoresStoredVerdicts | services/dataService.ts:28-36 | the result does not depend on the input's stored `passed` flags or lane |
| Policy.LaneMonotoneInPcAnalytic | services/dataService.ts:36-57 | raising `pcAnalytic` (NaN lowest) never lowers the lane, with gates, `pcMc` and hours fixed |
| Policy.LaneMonotoneInTimeToTca | services/dataService.ts:49-57 | bringing the TCA closer (NaN hours farthest) never lowers the lane |
| Policy.NaNGateFails | services/dataService.ts:32-46 | a NaN gate statistic fails its gate, and the event is at least MC_REQUIRED |
| Policy.PastTcaIsWithinWarning | services/dataService.ts:49-52 | a TCA already in the past counts as inside a positive warning window, so a high analytic probability gives ACTION_NOW |
| Policy.ScenarioLowRisk | services/dataService.ts:36-57 | default policy, `pcAnalytic` 5e-5, all gates passing, 48 h out: ANALYTIC_OK |
| Policy.ScenarioAboveRed | services/dataService.ts:40-42 | default policy, `pcAnalytic` 2e-4 and any gate values, 48 h out: MC_REQUIRED |
| Policy.ScenarioUrgent | services/dataService.ts:50-52 | default policy, `pcAnalytic` 2e-3, 10 h out: ACTION_NOW |
| EventStore.BulkPut | services/dataService.ts:186-188 | `bulkPut`: the keys become the old keys plus the batch's ids; keys outside the batch keep their records; for each id the last write in the batch wins |
| EventStore.Clear | services/dataService.ts:182-184 | `clear` leaves no keys |
| EventStore.BulkPutAppend | services/dataService.ts:186-188 | two puts in a row equal one put of the concatenated batch |
| EventStore.BulkPutAllFlatten | services/dataService.ts:304-324 | however the events are cut into batches, the store ends up the same as after one put of all of them |
| EventStore.BulkPutUnique | services/dataService.ts:186-188 | with distinct ids every event of the batch is stored as written |
| Text.Trim | services/dataService.ts:192 | `trim` gives the empty string exactly for an all-white-space input; the result neither starts nor ends with white space, a string that neither starts nor ends with white space is unchanged, and the result is a slice of the input with only white space around it |
| Text.Split | services/dataService.ts:279 | `split` gives at least one piece, and no piece holds the separator |
| Text.JoinSplit | services/dataService.ts:279-282 | joining the pieces of a split with the separator gives the original string back |
| Text.SplitJoin | services/dataService.ts:279-282 | splitting a join of separator-free pieces gives the pieces back |
| Text.SplitAppend | services/dataService.ts:278-282 | splitting `a + b` keeps every piece of `a` but the last, and the last piece of `a` continues into `b` |
| Text.FirstPieceStable | services/dataService.ts:286 | once a text holds a line break, appending more text does not change its first line |
| Text.Lower | services/dataService.ts:292 | `toLowerCase` keeps the length and folds each character |
| Seqs.Filter | App.tsx:106 | every element passing the test is kept and every kept element passes it, in the original order (a subsequence); multiplicities are `Seqs.FilterCounts` |
| Seqs.FilterCounts | App.tsx:106 | `filter` keeps each passing element exactly as often as it occurs in the input and drops every other one (multiset counts) |
| CsvRow.FindHeader | services/dataService.ts:196-199 | the index found is that of the first header containing the key; no index means no header contains it |
| CsvRow.FirstMatchingHeaderWins | services/dataService.ts:196-199 | a field's value comes from the column of the first header containing the key, or is missing when the row is shorter |
| CsvRow.NoMatchingHeaderIsAbsent | services/dataService.ts:196-199 | with no header containing the key, the field is missing |
| CsvRow.NumberField | services/dataService.ts:219-231 | the number is always finite: the parsed field when it is present and parses; otherwise the parsed fallback text (the next field in the chain, or the default's text), and the default when that does not parse |
| CsvRow.NormalizeTca | services/dataService.ts:208-217 | a missing TCA becomes now; one containing `T` is kept verbatim; otherwise a parsable date becomes its ISO form and an unparsable one is kept raw |
| CsvRow.SplitTrimmed | services/dataService.ts:193 | the values are the trimmed pieces of the split, one per piece |
| CsvRow.ParseCsvLine | services/dataService.ts:191-248 | no event exactly for a blank line or one with fewer than `min(3, headers)` fields; otherwise the event is classified by `applyPolicy` under the policy, has no `pcMc`, finite numbers, creation date now and the fixed covariance; `hbr`, the three gate statistics and the relative position and velocity are the row's placeholder values, and every gate reason is empty |
| CsvRow.ImportedRowFields | services/dataService.ts:201-234 | missing ids become the generated id and UNKNOWN_1 / UNKNOWN_2, a missing TCA becomes now and a present one is normalised; missing or unparsable numbers become 1000 / 7500 / 0, including an unparsable `speed` or `velocity` and an unparsable `prob` or `pc`; speed falls back from `speed` to `velocity`, probability from `prob` to `pc` |
| Ingestion.SniffDelimiter | services/dataService.ts:289-290 | tab iff the header line holds a tab; semicolon iff it holds a semicolon and no tab; comma otherwise |
| Ingestion.Reassemble | services/dataService.ts:278-282 | neither the complete lines nor the new leftover hold a line break, and joining them with line breaks gives the old leftover followed by the chunk |
| Ingestion.AcceptedAppend | services/dataService.ts:298-301 | parsing two runs of lines one after the other accepts the concatenation of what each accepts, with line numbers continuing |
| Ingestion.ProcessLinesInv | services/dataService.ts:298-312 | after a chunk's lines are processed, the buffer is below a batch, everything accepted so far is saved or buffered in order, every save had at least 1000 events, and one report was added |
| Ingestion.StepInv | services/dataService.ts:272-313 | one loop iteration keeps that invariant, adds at most one report and keeps the header once read |
| Ingestion.FeedInv | services/dataService.ts:272-313 | after any number of chunks the invariant holds and at most one progress value per chunk was reported |
| Ingestion.FinishOutcome | services/dataService.ts:315-326 | after the leftover line and the final flush, everything accepted is saved; no save is empty; the reports gain exactly the final 100, which is the last effect |
| Ingestion.ImportOutcome | services/dataService.ts:251-327 | every accepted event is saved exactly once, in order; every save but the last has at least 1000 events and none is empty; at most one save per chunk plus the final flush; every report before the last is at most 99; the last effect is the single report of 100, after the final save |
| Ingestion.HeadersFixedOnce | services/dataService.ts:284-295 | once the header row has been read, later chunks never change the headers or the delimiter |
| Ingestion.EmptyFirstLineSkipsChunk | services/dataService.ts:286-287 | a first chunk without a non-empty first line parses, saves and reports nothing, and the header is still to be read |
| Ingestion.ParseLines | services/dataService.ts:298-301 | the loop over a chunk's lines appends exactly the events the parser accepts, numbering the lines on from the current index |
| Ingestion.ReadChunk | services/dataService.ts:273-312 | the loop body computes one step of the fold |
| Ingestion.FinishImport | services/dataService.ts:315-326 | the code after the loop computes the fold's final step |
| Ingestion.ParseAndImportCdmFile | services/dataService.ts:251-327 | the loop computes the fold `Import`: every accepted line ends up in exactly one save, in order, and the last effect is the report of 100 |
| Ingestion.StepReports | services/dataService.ts:287-312 | a chunk reports nothing (the `continue`) or its own percentage capped at 99 |
| Ingestion.FeedReportsSorted | services/dataService.ts:312 | with growing chunk percentages the reports in the loop never decrease and none exceeds the last chunk's percentage |
| Ingestion.ImportReportsSorted | services/dataService.ts:312-326 | with growing chunk percentages the reported progress never decreases, up to the final 100 |
| Chunking.FirstLineOkPrefix | services/dataService.ts:286-287 | a prefix of a text with a non-empty first line has a non-empty first line too |
| Chunking.StepTracks | services/dataService.ts:278-294 | after each chunk the leftover is the last piece of the text read so far, the headers come from its first line and the lines parsed are the lines in between |
| Chunking.FeedTracks | services/dataService.ts:272-313 | the same holds after any number of chunks |
| Chunking.ImportReadsWholeText | services/dataService.ts:278-318 | when the first line is not empty, the lines parsed (header excluded, non-blank leftover included), the header row and the delimiter are those of the whole text, however it was cut into chunks |
| Chunking.ChunkingIndependent | services/dataService.ts:278-324 | two chunkings of the same text with a non-empty first line save the same events in the same order and leave the store in the same state |
| Chunking.EmptyFirstLineDependsOnChunking | services/dataService.ts:286-287 | with an empty first line the result does depend on the chunking: one chunk parses nothing, while a cut after the empty line parses the row below the next line |
| CsvImport.ImportedEventsClassified | services/dataService.ts:247 | every saved event carries the gates and lane `applyPolicy` gives it under the import's policy |
| CsvImport.SingleLineFileIsOneRow | services/dataService.ts:286-318 | a non-blank file without a line break is parsed with no headers, as one data line, and imports exactly one event |
| App.Retriage | App.tsx:43 | same length, and each element is `applyPolicy` of the event at the same position, at that event's own TCA; so only gates and lanes change, and each is classified under the policy |
| App.RetriageIdempotent | App.tsx:43 | re-triaging twice is re-triaging once |
| App.HandleApplyPolicy | App.tsx:42-45 | shows the re-triaged events and writes all of them |
| App.ApplyPolicyStoresWhatItShows | App.tsx:42-45 | with distinct ids, the store then holds each event on screen as shown, classified under the policy |
| App.HandleUpdateEvent | App.tsx:54-58 | only the events with the updated id change, each to `applyPolicy(updated)` at the TCA of `updated`; the store receives `updated` itself and keeps every other key |
| App.UpdateStoreAgreesIff | App.tsx:55-57 | the stored record equals the one on screen iff `updated` was already classified |
| App.MonteCarloUpdateLeavesStaleLane | App.tsx:55-57 | after a Monte Carlo result above the red threshold inside the warning window, the screen shows ACTION_NOW while the store keeps the old lane |
| App.HandleUpdateEventPersistingShown | App.tsx:54-58 | the corrected update: the same screen; the store receives `applyPolicy(updated)` at the TCA of `updated`, whether or not that event is on screen, and keeps every other key; when it is on screen, the stored record equals the one shown |
| App.PersistingShownAgrees | App.tsx:54-58 | with the corrected update, the stored record always equals the one on screen |
| App.NightmareView | App.tsx:106 | every ACTION_NOW event is listed and every listed event is ACTION_NOW, in original order; multiplicities are `App.NightmareViewCounts` |
| App.NightmareViewCounts | App.tsx:106 | the Nightmare view holds each ACTION_NOW event exactly as often as the event list does, and nothing else (multiset counts) |
| App.NightmareIsActionNowFilter | App.tsx:106 | the Nightmare view is the dashboard filter with an empty term and the ACTION_NOW selector, and it is as long as the ACTION_NOW counter |
| App.LoadData | App.tsx:27-38 | a non-empty store's events are shown as they are; an empty store gets the 50 generated events, shown and written |
| App.LoadedEventsListTheStore | App.tsx:27-38 | when the fetched events list the store and the generated ids are distinct, the events on screen list the store after loading |
| Dashboard.FilteredEvents | components/Dashboard.tsx:43-51 | a subsequence of the events; every kept event matches the search term and the lane selector; every matching event is kept |
| Dashboard.FilteredEventsCounts | components/Dashboard.tsx:43-51 | the filtered list holds each event matching the term and the lane selector exactly as often as the event list does, and nothing else (multiset counts) |
| Dashboard.ShowAllByDefault | components/Dashboard.tsx:44-49 | the empty term with the `'ALL'` selector returns all events |
| Dashboard.LanesPartition | components/Dashboard.tsx:53-60 | the three lane counts add up to the total |
| Dashboard.ComputeStats | components/Dashboard.tsx:53-60 | the total is the number of events; `action`, `mc` and `ok` are how often ACTION_NOW, MC_REQUIRED and ANALYTIC_OK occur among the events' lanes; and `action + mc + ok == total` |
| Dashboard.CountLaneIsMultiplicity | components/Dashboard.tsx:56-58 | the length of the filter for one lane equals how often that lane occurs among the events' lanes |
| MonteCarlo.VarianceNonNegative | services/dataService.ts:160-164 | the hit ratio is a probability, so the term under the square root is never negative |
| MonteCarlo.ConfidenceInterval | services/dataService.ts:160-171 | `0 <= ciLower <= pc <= ciUpper`; the upper end is `pc` plus the margin; the lower end is `pc` minus the margin, clamped at 0, and is 0 only when `pc` is at most the margin |
| MonteCarlo.UpperEndCanExceedOne | services/dataService.ts:170 | the upper end is not clamped: 99 hits in 100 samples give an upper end above 1 |

## Left out

- Floating point is idealised as `real` with a NaN value. Infinities, rounding and `Math.round` are not modelled, so a chunk's percentage is an input.
- The clock is not modelled: `new Date()` and `Date.now()` become inputs. The hours to a TCA are a `Clock` or the `hoursToTca` field of `Environment`, and "now" as an ISO string is `nowIso`. One instant serves a whole import.
- `parseFloat` and `Date.parse` followed by `toISOString` are uninterpreted functions in `Environment`.
- `toLowerCase` folds ASCII letters only. Non-ASCII case folding is not modelled.
- The random placeholders of an imported row are inputs per line index: hbr, gate values, geometry and the generated `IMP-…` id.
- `TextDecoder`, byte counts, `file.stream()` and the `setTimeout` yield are left out. Chunks are decoded strings.
- Stream read failures and the `try`/`catch` in `handleImport` are left out.
- Asynchrony is left out. Each handler is one atomic step, and the store is a map keyed by id.
- `fetchEventsFromDb` (`toArray`) has no order guarantee in the model. `EventStore.IsListing` only says that a sequence lists the store's records once each.
- `generateMockEvents` and its `Math.sin` pseudo-random generator are left out. `App.LoadData` takes the generator as an input.
- The Monte Carlo sampling loop is left out because it is random and uses trigonometry. `MonteCarlo.ConfidenceInterval` takes the margin `z * sqrt(pc * (1 - pc) / samples)` as an input.
- `formatSci`, `formatDist` and all rendering are left out. So is the UI state of the dashboard, inspector, policy editor, sidebar and encounter plane.
- EventInspector's update is modelled only as the copy with `pcMc` set (in `App.MonteCarloUpdateLeavesStaleLane`).

## Findings

| source | as written | input that shows it | evidently intended | confidence | as-written member | corrected member |
|---|---|---|---|---|---|---|
| App.tsx:55-57 | the update shows `applyPolicy(updated, policy)` but writes `updated` itself to the store | an MC_REQUIRED event whose TCA is 10 h away under the default policy, updated with `pcMc` = 2e-4 from a Monte Carlo run: the screen shows ACTION_NOW, the store keeps MC_REQUIRED | the refined event goes through the classifier before it is persisted, so the store holds the lane on screen | not executed; high (the persisted record and the displayed one differ in lane) | App.MonteCarloUpdateLeavesStaleLane | App.HandleUpdateEventPersistingShown |
