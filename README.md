# LegalLens document-analysis flow, modelled in Dafny

LegalLens takes one legal document (a PDF or an image), has a generative model
extract a financial and custody summary from it, and shows the result as a
report. This project models the part of the application that makes decisions:

- the **analysis flow controller** (`useAnalysisFlow`): the `analyzing`,
  `uploadProgress`, `analysisResult` and `error` state, the simulated progress
  interval, the upload / success / failure / finally / reset steps, and the
  status notifications it emits (`AnalysisFlow`, file `analysis_flow.dfy`);
- **upload validation** in the upload panel of `components/FileUpload.tsx`:
  the media-type allow-list, the 10 MiB limit and the selected-file slot
  (`FileUpload`). The shell does not mount this panel;
- the **upload entry points the shell does use**: the upload screen of
  `views/UploadView.tsx` and the header button of `layouts/AppLayout.tsx`,
  which forward any file unchecked (`UploadEntry`);
- the **analysis client**: the fail-fast credential check, the data-URL
  payload split (`data:[<mediatype>];base64,<data>`, section 3 of RFC 2397),
  the request and its declared response schema, the empty-response error and
  the rethrow policy (`GeminiService`, with string helpers in `Text`);
- **view routing** in the shell: status to view, `renderContent`, reset and the
  layout metadata (`App`);
- the **progress label** of the analyzing screen (`AnalyzingView`);
- the **result projections** of the two report components: `DashboardView`,
  which the shell renders, and `ResultsDashboard`, which it does not.

Shared records (`FinancialData`, `AnalysisData`, `AnalysisResult`, `AppView`,
...) are in `Types`; `Option` and `Result` in `Wrappers`.

State that the source changes in place is a class (`AnalysisFlow.Controller`,
`FileUpload.UploadPanel`, `App.AppState`, `DashboardView.DashboardState`).
Each `Controller` step is specified by a pure member function of the value
type `AnalysisFlow.Session`, and the properties of whole runs are lemmas about
those functions. `handleUpload` runs as three synchronous blocks separated by
its two awaits, and each block is one step:

- `BeginUpload` runs up to the 3000 ms delay.
- `StoreResult` sets progress to 100 and stores the result, up to the 500 ms delay.
- `ReportComplete` emits 'complete' and runs the `finally`.
- On a throw, `Fail` runs the catch block and the `finally` as one step.

A driver may interleave ticks, resets and further uploads between these
steps in any order, as the browser's event loop can.

The model follows the code as written. Where an intended design and the code
disagree, the code wins:

- There is no single-flight guard: `handleUpload` never looks at `analyzing`.
  A second upload while one is pending emits `'analyzing'` again. It does not
  reset progress, because the progress effect only reruns when `analyzing`
  changes.
- There is no stale-call token. A reset while an analysis is pending does not
  stop it, and `'complete'` is still emitted.
  - A reset during the 3000 ms delay: the late result is still stored and
    shown (`AnalysisFlow.LateResultSurvivesReset`, and the client method
    `App.ResetDuringAnalysis`).
  - A reset during the 500 ms delay: the stored result is cleared, and the
    shell moves to the dashboard view with no result, so the upload screen is
    drawn (`AnalysisFlow.ResetInCompletionWindow`, and the client method
    `App.ResetDuringCompletion`).
- Starting an upload clears the error but keeps the previous result.
- On success progress is set to 100. The interval keeps running through the
  500 ms delay that follows, so one tick pulls it back to 98
  (`AnalysisFlow.TicksAfterStore`).
- The client sends the response schema to the model but does not check the
  reply against it: any text that parses is returned. `as FinancialData` is a
  cast with no run-time check, so the parse oracle yields any JSON value and the
  call resolves with it as it is. The schema is modelled as the predicate
  `GeminiService.Conforms`; `NonConformingReplyReturned` and
  `EmptyObjectReturned` show replies it rejects being returned as successes, and
  `SupportAmountsMayBeAbsent` shows a conforming reply whose two support amounts
  are missing, although `FinancialData` declares them as numbers.
- The flow calls the built-in mock analysis, not the client. The two are
  modelled separately.
- The upload panel accepts `image/webp`, but its type error message names
  only PDF, JPG and PNG. The message is kept verbatim.
- The upload boundary is enforced on no path into `handleUpload`:
  - The media-type allow-list and the 10 MiB limit live in
    `components/FileUpload.tsx`, which no file of the application imports.
  - The shell renders `views/UploadView.tsx` instead, and its drop zone and
    file input forward the first file with no type or size check. So does the
    header button of `layouts/AppLayout.tsx` (`UploadEntry.Forward`).
  - Every file the panel would refuse is still forwarded
    (`UploadEntry.RefusedFilesForwarded`).
- The dashboard's own drop zone forwards any file whose type matches
  `pdf|image` anywhere (`image/gif`, say), with no size check. Its file input
  checks nothing at all. The upload panel's allow-list and 10 MiB limit apply
  on no path the shell uses.
- The shell renders the dashboard only with a result, so the dashboard's
  fallback data is never shown from the shell. It is modelled all the same.

## Model

| member | source | states |
|---|---|---|
| `AnalysisFlow.IncrementProgress` | src/lib/useAnalysisFlow.ts:10-13 | below 98 a tick adds 2, at or above 98 it gives 98; from any reachable value it lands on a reachable value of at most 98 |
| `AnalysisFlow.TicksFromZero` | src/lib/useAnalysisFlow.ts:10-13 | from 0, n ticks give min(2n, 98): every value is even and at most 98 |
| `AnalysisFlow.IncrementProgressShape` | src/lib/useAnalysisFlow.ts:10-13 | 98 is a fixed point; below 98 a tick adds 2; a tick at 100 gives 98; ticks keep progress among its reachable values |
| `AnalysisFlow.ErrorMessage` | src/lib/useAnalysisFlow.ts:101 | the stored message is the thrown message when it has one, else exactly the fixed default; never empty |
| `AnalysisFlow.MockResult` | src/lib/useAnalysisFlow.ts:74-80 | the result carries the given id and timestamp, is named after the file, holds the mock record (two notes, three risks) and never raises the ODSP/CPP alert |
| `AnalysisFlow.Session.BeginUpload` | src/lib/useAnalysisFlow.ts:89-93 | an empty list changes nothing; otherwise analyzing on, error cleared, result kept, 'analyzing' appended, progress to 0 only if analyzing was off; reachability kept |
| `AnalysisFlow.Session.Tick` | src/lib/useAnalysisFlow.ts:27-29 | only progress changes; it advances by 2 below 98 and stays reachable and at most 98 |
| `AnalysisFlow.Session.Ticks` | src/lib/useAnalysisFlow.ts:27-29 | any number of ticks keeps the interval registered and progress reachable |
| `AnalysisFlow.Session.StoreResult` | src/lib/useAnalysisFlow.ts:82-83 | progress 100 and the result stored; analyzing, error and statuses untouched (nothing emitted yet) |
| `AnalysisFlow.Session.ReportComplete` | src/lib/useAnalysisFlow.ts:97-108 | 'complete' appended and analyzing off; result, error and progress are whatever they are at that moment |
| `AnalysisFlow.Session.Fail` | src/lib/useAnalysisFlow.ts:99-108 | result dropped, the non-empty message stored, 'error' appended, analyzing off, progress left as it was |
| `AnalysisFlow.Session.Reset` | src/lib/useAnalysisFlow.ts:111-117 | not analyzing, progress 0, no result, no error, 'idle' appended |
| `AnalysisFlow.StepsPreserveValid` | src/lib/useAnalysisFlow.ts:18-117 | every step keeps progress an even value in 0..98, or exactly 100 |
| `AnalysisFlow.TicksOnlyChangeProgress` | src/lib/useAnalysisFlow.ts:27-29 | interval ticks change only progress |
| `AnalysisFlow.TicksStayBelowCap` | src/lib/useAnalysisFlow.ts:23-32 | before the result is stored (progress at most 98), ticks never lower progress and never pass 98 |
| `AnalysisFlow.UploadProgressFollowsTicks` | src/lib/useAnalysisFlow.ts:23-29 | once analyzing turns on, progress restarts at 0 before any tick, then follows the ticks |
| `AnalysisFlow.TicksAfterStore` | src/lib/useAnalysisFlow.ts:82-84 | in the 500 ms delay the first tick pulls progress from 100 to 98, where it stays |
| `AnalysisFlow.SuccessfulRun` | src/lib/useAnalysisFlow.ts:74-108 | after upload, n ticks, the stored result, m ticks and completion: progress is 100 if m = 0 else 98, result named after the first file, error cleared, analyzing off, statuses exactly 'analyzing' then 'complete' |
| `AnalysisFlow.FailedRun` | src/lib/useAnalysisFlow.ts:99-108 | after a failure: result null, error is the message or the default, statuses 'analyzing' then 'error', analyzing off |
| `AnalysisFlow.EmptyUploadIsNoOp` | src/lib/useAnalysisFlow.ts:90 | an empty file list changes no state and emits nothing |
| `AnalysisFlow.UploadKeepsPreviousResult` | src/lib/useAnalysisFlow.ts:89-96 | upload sets analyzing and clears error, keeps the previous result; progress goes to 0 only if analyzing was off |
| `AnalysisFlow.ResetIsIdempotent` | src/lib/useAnalysisFlow.ts:111-117 | reset gives result null, error null, progress 0, analyzing off, emits 'idle'; a second reset changes nothing more than another 'idle' |
| `AnalysisFlow.LateResultSurvivesReset` | src/lib/useAnalysisFlow.ts:82-97 | a result arriving after a reset in the 3000 ms delay is stored, and 'complete' follows 'idle' |
| `AnalysisFlow.ResetInCompletionWindow` | src/lib/useAnalysisFlow.ts:82-117 | a reset in the 500 ms delay clears the stored result; 'complete' still follows 'idle', with no result and progress 0 |
| `AnalysisFlow.Controller.constructor` | src/lib/useAnalysisFlow.ts:18-21 | initial state: not analyzing, progress 0, no result, no error |
| `AnalysisFlow.Controller.BeginUpload` | src/lib/useAnalysisFlow.ts:89-93 | new state is `Session.BeginUpload` of the old; returns the first file, or nothing for an empty list |
| `AnalysisFlow.Controller.Tick` | src/lib/useAnalysisFlow.ts:27-29 | runs only while analyzing; new state is `Session.Tick` of the old |
| `AnalysisFlow.Controller.StoreResult` | src/lib/useAnalysisFlow.ts:74-83 | stores and returns the mock result named after the file; new state is `Session.StoreResult` of the old |
| `AnalysisFlow.Controller.ReportComplete` | src/lib/useAnalysisFlow.ts:97-108 | new state is `Session.ReportComplete` of the old |
| `AnalysisFlow.Controller.Fail` | src/lib/useAnalysisFlow.ts:99-108 | new state is `Session.Fail` of the old; returns the same error for rethrow |
| `AnalysisFlow.Controller.Reset` | src/lib/useAnalysisFlow.ts:111-117 | new state is `Session.Reset` of the old |
| `FileUpload.ValidationError` | src/components/FileUpload.tsx:27-39 | accepted iff the type is one of the four and size is at most 10 MiB; a bad type gets the type message, a good type too large gets the size message |
| `FileUpload.SizeLimitBoundary` | src/components/FileUpload.tsx:33-36 | exactly 10485760 bytes is accepted, one more byte is refused |
| `FileUpload.TypeCheckedBeforeSize` | src/components/FileUpload.tsx:29-36 | an oversized file of a bad type gets the type message |
| `FileUpload.UploadPanel.constructor` | src/components/FileUpload.tsx:14-15 | no file selected, no error |
| `FileUpload.UploadPanel.ValidateFile` | src/components/FileUpload.tsx:27-39 | returns acceptance and writes the error slot: cleared when valid |
| `FileUpload.UploadPanel.HandleSelection` | src/components/FileUpload.tsx:41-62 | only the first file counts; a valid one replaces the selection, an invalid one leaves it; an empty list changes nothing |
| `FileUpload.UploadPanel.HandleProcess` | src/components/FileUpload.tsx:64-68 | uploads exactly the selected file as a one-element list, nothing when none is selected |
| `FileUpload.UploadPanel.ClearSelection` | src/components/FileUpload.tsx:123 | clears the selection and leaves the error alone |
| `Text.Split` | src/services/geminiService.ts:11 | at least one segment, none containing the separator |
| `Text.JoinSplit` | src/services/geminiService.ts:11 | joining the segments with the separator gives the string back |
| `Text.SplitJoin` | src/services/geminiService.ts:11 | splitting a join of separator-free segments gives the segments back |
| `Text.ContainsIffOccurs` | src/views/DashboardView.tsx:48 | substring search holds iff the substring occurs at some position |
| `GeminiService.PayloadData` | src/services/geminiService.ts:11 | undefined exactly when the data URL has no comma; a defined payload contains no comma |
| `GeminiService.PayloadAfterFirstComma` | src/services/geminiService.ts:11 | the payload is the text after the first comma, up to a second comma |
| `GeminiService.NoCommaNoPayload` | src/services/geminiService.ts:11 | without a comma the payload is undefined |
| `GeminiService.PayloadOfDataUrl` | src/services/geminiService.ts:9-17 | for a base64 data URL the payload is exactly the encoded data (the prefix is stripped) |
| `GeminiService.FileToGenerativePart` | src/services/geminiService.ts:5-22 | mimeType is the file's declared type unchanged, data is the payload; a reader error rejects with that error |
| `GeminiService.BuildRequest` | src/services/geminiService.ts:50-78 | two parts, the file part first and the prompt second, with the model name and the declared schema |
| `GeminiService.AnalyzeDocument` | src/services/geminiService.ts:24-90 | no effect at all iff the key is missing; at most one request, sent iff the key is present and the file was read; success needs both; the outcome is a JSON value, since the `as FinancialData` cast checks nothing |
| `GeminiService.MissingKeyFailsFast` | src/services/geminiService.ts:25-27 | without a key the call throws the missing-key error with no client, no file read, no request |
| `GeminiService.EffectsInOrder` | src/services/geminiService.ts:25-56 | with a key: client created, then file read, then exactly one request when the read succeeded, none otherwise |
| `GeminiService.EmptyResponseRejected` | src/services/geminiService.ts:80-84 | a reply with absent or empty text raises "No data returned from analysis." |
| `GeminiService.NothingSwallowed` | src/services/geminiService.ts:24-90 | success iff key, read, text and parse all succeed, returning the parsed record; each failure (key, read, transport, parse) carries its originating error unchanged |
| `GeminiService.RequiredFieldsDeclared` | src/services/geminiService.ts:60-75 | every required field is one of the declared properties |
| `GeminiService.RequiredFieldsExactly` | src/services/geminiService.ts:75 | the required list is exactly applicantIncome, respondentIncome, hasODSP, hasCPP, complianceNotes, each once |
| `GeminiService.SupportFieldsOptional` | src/services/geminiService.ts:65-66 | childSupport and spousalSupport are declared but not required |
| `GeminiService.MissingRequiredFieldRejected` | src/services/geminiService.ts:75 | a record missing a required field (hasODSP, say) does not satisfy the schema |
| `GeminiService.RequiredOnlyRecordConforms` | src/services/geminiService.ts:62-75 | a record with just the five required fields, correctly typed, satisfies it |
| `GeminiService.NonConformingReplyReturned` | src/services/geminiService.ts:80-82 | text that parses to an object the schema rejects is still returned as the success value |
| `GeminiService.EmptyObjectReturned` | src/services/geminiService.ts:80-82 | the reply `{}` does not satisfy the schema, yet the call resolves with it |
| `GeminiService.SupportAmountsMayBeAbsent` | src/services/geminiService.ts:62-82 | a conforming reply without childSupport and spousalSupport resolves with both absent |
| `App.ViewForStatus` | src/App.tsx:21-29 | 'analyzing' to the analyzing view, 'complete' to the dashboard, 'error' and 'idle' to upload, each both ways |
| `App.Alert` | src/App.tsx:56 | the alert is drawn exactly when the error is present and non-empty, and then shows that error |
| `App.RenderContent` | src/App.tsx:37-60 | profile and compliance render regardless; dashboard only with a result, else the upload screen; only the upload screen shows the error alert, and only for a non-empty error |
| `App.AnalysisMetaOf` | src/App.tsx:67-71 | defined iff there is a result, copying its file name, case date and case number |
| `App.AppState.constructor` | src/App.tsx:13 | starts on the upload view with a fresh flow |
| `App.AppState.OnStatusChange` | src/App.tsx:21-29 | the current view becomes the status's view |
| `App.AppState.HandleUpload` | src/App.tsx:21-23 | a non-empty upload shows the progress screen with the current progress |
| `App.AppState.ResultStored` | src/App.tsx:67-71 | when the result is stored the view does not change, and the layout metadata becomes the new result's |
| `App.AppState.AnalysisCompleted` | src/App.tsx:24-59 | 'complete' moves to the dashboard view, which shows the stored result if there is one and the upload screen if a reset cleared it |
| `App.AppState.AnalysisFailed` | src/App.tsx:26-27 | after failure the upload screen shows the error alert, and there is no metadata |
| `App.AppState.HandleReset` | src/App.tsx:32-35 | always ends on the upload screen without an alert |
| `App.AppState.SetView` | src/App.tsx:65 | navigation sets the current view |
| `UploadEntry.Forward` | src/views/UploadView.tsx:29-45 | the first chosen or dropped file is forwarded alone, wrapped once, whenever there is one; no type or size check |
| `UploadEntry.RefusedFilesForwarded` | src/layouts/AppLayout.tsx:33-38 | every file the upload panel refuses (bad type or over 10 MiB) is still forwarded by the shell's entry points |
| `UploadEntry.OversizedTextFileForwarded` | src/views/UploadView.tsx:39-45 | a 20 MiB text/plain file gets the panel's type message, yet the shell forwards it |
| `AnalyzingView.StatusText` | src/components/AnalyzingView.tsx:9-14 | always one of the four labels; 'OCR Scanning...' iff below 30, 'Finalizing Report...' iff 90 or above |
| `AnalyzingView.Stage` | src/components/AnalyzingView.tsx:9-14 | the stage is one of the four labels |
| `AnalyzingView.StatusTextIsStageLabel` | src/components/AnalyzingView.tsx:9-14 | label per threshold band (below 30, 30-59, 60-89, 90 and above, so 98 and 100 read 'Finalizing Report...') |
| `AnalyzingView.StageMonotone` | src/components/AnalyzingView.tsx:9-14 | the stage never goes back as progress grows |
| `AnalyzingView.Render` | src/components/AnalyzingView.tsx:30-38 | the percentage and the bar width are the progress value verbatim |
| `ResultsDashboard.NumberFrom` | src/components/ResultsDashboard.tsx:154-157 | note i is numbered start + i, in order |
| `ResultsDashboard.ChartData` | src/components/ResultsDashboard.tsx:17-20 | two bars, Applicant then Respondent, with their incomes, in different colours |
| `ResultsDashboard.Observations` | src/components/ResultsDashboard.tsx:153-163 | placeholder iff there are no notes, else the notes in order numbered from 1 |
| `ResultsDashboard.Render` | src/components/ResultsDashboard.tsx:14-20 | a null result renders nothing |
| `ResultsDashboard.ReportFaithful` | src/components/ResultsDashboard.tsx:17-163 | two chart entries Applicant then Respondent with their incomes, alert iff hasODSP or hasCPP, flag count equals the number of notes |
| `DashboardView.DisplayData` | src/views/DashboardView.tsx:64-86 | the result's own data when present, else the fallback |
| `DashboardView.Fallback` | src/views/DashboardView.tsx:64-86 | the fallback's case, obligations and risks are the mock record's; its three custody entries are the mock's plus a responsibility |
| `DashboardView.FallbackShape` | src/views/DashboardView.tsx:64-86 | 3 custody, 3 financial and 3 risk entries; the risks are toned red, amber, blue; only the asset item is marked "Action Req"; the risks badge shows 3 |
| `DashboardView.OrDefault` | src/views/DashboardView.tsx:119-120 | the first string unless it is empty |
| `DashboardView.HeaderOf` | src/views/DashboardView.tsx:119-120 | file name falls back to 'Decree_Final.pdf' (no result, or an empty name), date to 'Today', case number to 'Unknown' |
| `DashboardView.RiskBadge` | src/views/DashboardView.tsx:164-167 | badge shown iff there are risks, showing their count |
| `DashboardView.SeverityTone` | src/views/DashboardView.tsx:284-294 | high is red, medium amber, anything else blue |
| `DashboardView.DropUpload` | src/views/DashboardView.tsx:41-52 | forwards only the first dropped file, and only if its type mentions pdf or image |
| `DashboardView.DropFilterAccepts` | src/views/DashboardView.tsx:48 | the four accepted types pass, and so does image/gif |
| `DashboardView.DropFilterRejects` | src/views/DashboardView.tsx:48 | a type with neither 'd' nor 'm' (text/plain) is ignored |
| `DashboardView.DashboardState.constructor` | src/views/DashboardView.tsx:22 | the initial tab is summary |
| `DashboardView.DashboardState.SelectTab` | src/views/DashboardView.tsx:153-156 | a tab click makes that tab, one of the four, active |
| `DashboardView.DashboardState.HandleFileChange` | src/views/DashboardView.tsx:54-60 | the first chosen file is forwarded as a one-element list, and the input is always cleared |

## Left out

- The GoogleGenAI SDK call, `JSON.parse` and `FileReader` are foreign code with asynchronous I/O. They are parameters: `ReadOutcome`, an oracle `Request -> Reply`, and an oracle for parsing.
- `setTimeout`/`setInterval` timing (the 50 ms cadence, the 3000 ms and 500 ms delays) is wall-clock time. Ticks and resolutions are explicit steps in any order.
- `crypto.randomUUID`, `new Date().toLocaleString()` and `Intl.NumberFormat` are nondeterministic or locale formatting. Ids and timestamps are parameters; currency text is not modelled.
- Chart drawing and the `val/1000` axis formatter are floating-point presentation.
- Incomes and support amounts are `real`, so floating-point rounding is not modelled. Progress, ids and file sizes are integers: the code only ever adds 2 to progress or sets it to 0, 98 or 100, and the ids and sizes are whole numbers.
- `console.error` logging is output only.
- `GeminiService.FileToGenerativePart`: on a read error the reader also fires `loadend`, whose handler calls `.split` on a null result and throws a TypeError inside the event handler. The promise has already been rejected with the reader's error by then, which is the outcome modelled; the stray exception is not.
- The profile service and view, both compliance views, `Button` and `ErrorAlert` are navigation chrome, static copy or styling. The navigation of `layouts/AppLayout.tsx` and the hero copy of `views/UploadView.tsx` are left out for the same reason. Their file handlers forward files unchecked, and that is modelled as `UploadEntry.Forward`. Their input reset and drag-hover state are not modelled.
- `ResultsDashboard` models `components/ResultsDashboard.tsx`, which the shell does not mount: `App.tsx` renders `views/DashboardView.tsx`. It is modelled as a projection of a result; no run of the shell reaches it.
- Drag-hover flags (`dragActive`, `isDragging`) and the question box (`chatQuery`) are cosmetic state.
- The contents of the mock record are kept as a constant. Long strings in the record, the fallback data and the prompt are written as concatenations of shorter literals; the text is unchanged.
- React's render scheduling is not modelled. The progress effect is folded into the step that flips `analyzing`. The interval is treated as cleared as soon as `analyzing` is off, so no tick runs between a reset or `finally` and the next render.
- A thrown value without a message, a null error and an empty message are all `Exception("")`, because the code only tests `err?.message` for truthiness.
- `DashboardView.DashboardState.SelectTab` requires the tab to be one of the four, since only the tab buttons call it.
