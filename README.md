# ClinicalRAG core, modelled in Dafny

ClinicalRAG is a browser application. A user uploads a medical report, a scan or a video.
The application sends them to a generative model and gets back a structured analysis:
patient data, findings with severity, image annotations with bounding boxes, and
historical comparisons. It shows that analysis on a tabbed dashboard and lets the user chat
about it. This project models the logic of that application and proves properties of it:

- `GeminiService` (`gemini_service.dfy`) covers `services/geminiService.ts`.
  - `WithRetry` is the bounded retry helper with exponential backoff.
  - The analysis call has the key check, the per-file size ceilings, the order of the request
    parts and the mapping of failures onto three user messages.
  - The chat call has its short-circuit rules, its context rule, the order of its contents
    and its fallback replies.
  - The remote service is an oracle: a sequence of settled outcomes, one per attempt.
    `JSON.parse` is a parameter.
- `App` (`app.dfy`) covers `App.tsx`.
  - The class `ClinicalApp` holds the component's state cells, with one method per handler:
    login, guest, logout, account deletion, profile update, session save, select and delete,
    file upload, attachment removal, scenario selection, submission, navigation, and
    favourite and removal of saved medicines.
  - The pure decisions are functions beside the class: the file validator and classifier,
    the avatar initials, the choice of the first attachment of each type, the query choice,
    medicine de-duplication, and the model's answer to a submission.
- `Dashboard` (`dashboard.dfy`) covers `components/Dashboard.tsx`.
  - Its display decisions are functions: risk and severity colours, the health score and
    its bar, boxes scaled to percentages (in exact `real` arithmetic), description
    truncation, metric toggling and filtering, trend arrow and badge, and chart colours.
  - The class `DashboardView` holds the state cells for the active tab, the selected finding,
    the expanded cards and the picked metrics.
- `Loader` (`loader.dfy`) covers `components/Loader.tsx`: the class `StepLoader`, a
  saturating step counter with an always-valid index.
- `Types` (`types.dfy`) covers `types.ts`.
  - The closed unions become datatypes whose wire names round-trip.
  - The records produced by the JSON cast keep their enumerated fields as raw strings,
    because nothing checks them at run time. The predicate `WellTyped` states what the
    declaration promises but does not enforce.
- Helper modules: `Optional` (`optional.dfy`), `Seqs` (`seqs.dfy`) for filter, remove-at
  and find, and `Strings` (`strings.dfy`) for the JavaScript string operations the source
  uses.

Where the documented behaviour and the code disagree, the model follows the code. One case
is the error for a file that cannot be read during analysis. It is documented as naming the
file. But the browser rejects with a `ProgressEvent`, whose `message` is undefined, so the
error reads "File processing failed: undefined" (`ReadFailureDetail`).

The two exceptions are the defects listed under "## Findings". For each, the code as written
is a member of its own, with a lemma that exhibits the defect. The rest of the model (the
state held by `ClinicalApp`, the dashboard) uses the corrected definition. So a saved session's
title and preview are `SessionText`, not `SessionTextAsWritten`, and the badge is
`SeverityBadge`, not `SeverityBadgeAsWritten`.

## Model

| member | source | states |
|---|---|---|
| GeminiService.WithRetry | services/geminiService.ts:8-21 | at most `retries + 1` calls; the result is how the last call settled; that call ends the run (it returned, no retries were left, or its error is not retryable) and every earlier call failed retryably; one wait fewer than calls, the k-th wait being `delay * 2^k` |
| GeminiService.IsRetryable | services/geminiService.ts:15 | only an error with a message or a status is retried; a status of 500 or more, or a message containing "fetch", is always retried |
| GeminiService.ClientErrorNotRetryable | services/geminiService.ts:15 | an error with a status below 500 and no "fetch" in its message is not retried |
| GeminiService.SuccessReturnedImmediately | services/geminiService.ts:10 | a success after only retryable failures is returned at once, after exactly `k + 1` calls |
| GeminiService.TerminalErrorNotRetried | services/geminiService.ts:15-16 | an error that is neither a "fetch" message nor a status of 500 or more is rethrown after one call with no wait |
| GeminiService.ExhaustedRetriesRethrowLast | services/geminiService.ts:12 | when every allowed attempt fails retryably, the last error surfaces after `retries + 1` calls |
| GeminiService.DelaysDouble | services/geminiService.ts:18-19 | each wait is twice the one before |
| GeminiService.DefaultSchedule | services/geminiService.ts:8 | with the defaults, at most three calls, and the waits are a prefix of 1000 ms then 2000 ms |
| GeminiService.FileCheck | services/geminiService.ts:53-66 | a file fails preparation exactly when it is over its ceiling or cannot be read |
| GeminiService.FirstFileFailure | services/geminiService.ts:53-67 | no failure exactly when all three files pass; otherwise the report's failure if it has one, then the image's, then the video's |
| GeminiService.FileParts | services/geminiService.ts:53-66 | no parts for an absent file; for a present one, its data followed by its label |
| GeminiService.RequestParts | services/geminiService.ts:50-67 | two parts per present file, none of them the prompt |
| GeminiService.RequestPartsLayout | services/geminiService.ts:50-67 | two parts per present file, report then image then video, each file's data immediately followed by its label |
| GeminiService.AnalysisFailureMessage | services/geminiService.ts:175-179 | "busy" exactly when the message contains "429"; "safety" exactly when it contains "SAFETY" but not "429"; the generic message otherwise, including when there is no message |
| GeminiService.EmptyReplyIsGeneric | services/geminiService.ts:169-173 | a response without text, or with empty text, is reported with the generic message |
| GeminiService.EmptyAnalysisIsGeneric | services/geminiService.ts:172-179 | the empty-response error maps to the generic message |
| GeminiService.GenericWithoutCodes | services/geminiService.ts:177-179 | a message with neither a '4' nor an 'S' in it maps to the generic message |
| GeminiService.InterpretReply | services/geminiService.ts:169-179 | the parsed analysis exactly when the call returned a non-empty text that parses; every failure is one of the three user messages and has no status |
| GeminiService.Analysis | services/geminiService.ts:41-181 | no key: fails with the missing-key message and makes no call; a file failure: fails with "File processing failed: " plus its detail and makes no call; otherwise the request is the prompt followed by `RequestParts` of the three files, the calls and waits are those of `WithRetry` with the defaults, the result is `InterpretReply` of how the last call settled, and any failure is one of the three user messages |
| GeminiService.OversizeRejectedBeforeAnyCall | services/geminiService.ts:53-69 | an oversized report, image or video (its predecessors having passed) is rejected with its own message and no call |
| GeminiService.SizesAtLimitAccepted | services/geminiService.ts:54-64 | exactly 50 MiB passes the document size check and one byte more fails it; the same holds for 100 MiB and the video check |
| GeminiService.AnalyzeMedicalCase | services/geminiService.ts:41-181 | the method that builds `parts` push by push does exactly what `Analysis` specifies |
| GeminiService.ContextFor | services/geminiService.ts:192-194 | the context is serialised exactly when it has findings |
| GeminiService.PrescriptionCheckIgnoresCase | services/geminiService.ts:197-198 | the prescription check gives the same answer for a message and for its lower-cased form |
| GeminiService.HistoryTurns | services/geminiService.ts:268-271 | one turn per history message, in order, each with the message's role and its text (the empty string when it has none) |
| GeminiService.ChatWithMedicalContext | services/geminiService.ts:184-284 | no key: the demo string; a message mentioning "prescribe" or "prescription" in any case: the refusal, with no call; otherwise the contents are the system instruction, the history in order, then the new message; the calls and waits are those of `WithRetry` with the defaults, and the reply is the last call's response text, the "trouble" string for an empty text, or the connection string when the call failed; the reply is never empty |
| Types.ParseSeverity | types.ts:13 | parsing recovers exactly the declared severity names |
| Types.ParseRiskLevel | types.ts:29 | parsing recovers exactly the declared risk-level names |
| Types.ParseModality | types.ts:14 | parsing recovers exactly the declared modality names |
| Types.ParseTrend | types.ts:40 | parsing recovers exactly the declared trend names |
| Types.NamesRoundTrip | types.ts:13-47 | every enumerated value is recovered from its wire name |
| App.Initials | App.tsx:155 | exactly two characters, or as many as there are words when there are fewer; each is the upper-cased start of one of the first words of the name |
| App.InitialsOfSplit | App.tsx:155 | the initials equal the first letters of the space-separated pieces, joined, cut to two and upper-cased |
| App.MockUser | App.tsx:151-156 | the fixed id and e-mail, the given name, and the initials of that name as avatar |
| App.LoginName | App.tsx:148 | the stored display name when it is non-empty, otherwise "Alex Mercer" |
| App.IsSupportedType | App.tsx:225-231 | a type is accepted exactly when it contains an allowed subtype, or is an image or video type |
| App.Classify | App.tsx:233-235 | `image` exactly for "image/" types, `video` for "video/" types, `report` for all others |
| App.UploadRejection | App.tsx:220-231 | no rejection exactly when the file is within 50 MiB and its type is accepted; size is checked before type |
| App.AnyImageTypeAccepted | App.tsx:227-234 | an image type the list does not name is still accepted and classified as an image |
| App.SubtypeOccurrenceAccepted | App.tsx:226 | a type in which an allowed subtype occurs anywhere is accepted |
| App.OtherTypesFiledAsReports | App.tsx:233-235 | a type starting with neither 'i' nor 'v' is classified as a report |
| App.AudioMp4AcceptedAsReport | App.tsx:226-235 | "audio/mp4" is accepted and classified as a report |
| App.CsvRefused | App.tsx:225-231 | "text/csv" is refused |
| App.UploadedAttachment | App.tsx:237-242 | the file, its name, its classified type, a preview exactly for images, and not a demo; a file that passes the upload checks gives a checked attachment |
| App.SubmitBlocked | App.tsx:272 | always blocked while processing; otherwise blocked exactly when there are no attachments and the input is blank under `trim` |
| App.IdeographicSpaceBlocksSubmit | App.tsx:272 | an input of only the ideographic space, with no attachments, is blocked, since `trim` removes that character |
| App.EmergencyToast | App.tsx:279-283 | the emergency toast exactly when the text names one of the four emergencies; otherwise the toast is unchanged |
| App.EmergencyCheckIgnoresCase | App.tsx:279-281 | the emergency check gives the same answer for a text and for its lower-cased form |
| App.HasDemoAttachment | App.tsx:301 | true exactly when some attachment is a demo one |
| App.InDemoMode | App.tsx:301-304 | demo mode needs an active scenario and at least one attachment |
| App.FirstOfKindIsFirst | App.tsx:345-347 | the attachment found is the first one of that type, and none is found only when no attachment has that type |
| App.SelectFilesTakesFirstOfEachKind | App.tsx:345-347 | each selected file belongs to the first attachment of its type |
| App.ErrorText | App.tsx:356 | the error's message when it is non-empty, otherwise "Failed to analyze files"; never empty |
| App.UserMessage | App.tsx:285-292 | a user text message with the input as text, the attachments as sent, and the current time as id |
| App.DemoReply | App.tsx:307-322 | a model analysis message with empty text and the scenario's analysis; it carries the medicine card exactly for the medicine scenario |
| App.AiMessage | App.tsx:390-397 | a model analysis message with the reply text and the given dashboard data, id `now + 1` |
| App.DemoMedicine | App.tsx:325-330 | the medicine mock, with the current time as id and date, not a favourite |
| App.ChooseQuery | App.tsx:380-382 | after a new analysis, a text shorter than five characters is replaced by the default query; otherwise the text is kept |
| App.AddMedicineIfNew | App.tsx:331-333 | the medicine is prepended exactly when no saved medicine has its name |
| App.SavedNamed | App.tsx:331 | nothing is found exactly when no saved medicine has that name |
| App.AddMedicineKeepsNamesDistinct | App.tsx:331-333 | adding keeps the saved names pairwise distinct, and adding again adds nothing |
| App.ToggleFavoriteIn | App.tsx:477 | same length; exactly the entries with that id have their favourite flag flipped |
| App.ToggleFavoriteTwice | App.tsx:477 | toggling the same id twice restores the list |
| App.RemoveMedicineIn | App.tsx:478 | every entry with that id is dropped and every other entry is kept |
| App.RemoveMedicineKeepsOrder | App.tsx:478 | removal distributes over concatenation, so the rest keep their order |
| App.DeleteSessionIn | App.tsx:470 | every session with that id is dropped and every other session is kept |
| App.SessionTextAsWritten | App.tsx:205-207 | as written: "undefined..." for an absent text; otherwise the first `n` characters followed by "...", even for an empty text |
| App.SessionFallbackUnreachable | App.tsx:205-207 | as written, the title is never the fallback: an empty text gives "..." and an absent one gives "undefined..." |
| App.SessionText | App.tsx:205-207 | corrected: the fallback for an absent or empty text, otherwise the first `n` characters followed by "..." |
| App.SessionTextAgreesOnText | App.tsx:205-207 | for a message with a non-empty text, the corrected and the as-written text are the same |
| App.DemoReplyPreviewDiffers | App.tsx:205-207 | after a demo reply, the code as written stores the preview "...", where the corrected session stores "No preview" |
| App.NewSession | App.tsx:203-209 | the saved session holds the messages, with the given id and date; its title is the first 40 characters of the first message followed by "...", and its preview the first 60 of the last one, each falling back to "Medical Analysis" or "No preview" when that message has no text (the corrected reading) |
| App.ModelAnswer | App.tsx:339-399 | a failed analysis gives an error toast, no reply and the previous analysis; without files to analyse, the reply has no dashboard data and the previous analysis stays; after a new analysis, the reply carries it; every reply is a non-empty model message; without a key, the demo string, or the missing-key error when files were sent |
| App.ModelAnswerComputes | App.tsx:339-399 | with the first file of each type selected: a failed `Analysis` shows `ErrorText` of its error; a successful one becomes the analysis; the reply is `ChatWithMedicalContext` of the earlier messages, the `ChooseQuery` text and the analysis (or the guest context) |
| App.ClinicalApp.constructor | App.tsx:40-100 | the initial state cells; a stored user opens the dashboard and loads that user's medicines and sessions |
| App.ClinicalApp.HandleLogin | App.tsx:146-161 | the mock user with the stored or default name and its initials, the dashboard view, and that user's stored lists |
| App.ClinicalApp.UpdateUserProfile | App.tsx:163-170 | does nothing without a user; otherwise sets the name and its initials and shows the confirmation |
| App.ClinicalApp.SaveDisplayName | components/Views.tsx:178-183 | a blank name changes nothing; any other name, when a user is signed in, becomes the name and its initials the avatar, and the confirmation toast shows; without a user nothing changes |
| App.ClinicalApp.HandleGuest | App.tsx:172-176 | opens the dashboard with no user |
| App.ClinicalApp.HandleLogout | App.tsx:178-187 | empties the user, messages, sessions, medicines and analysis, and returns to the landing page |
| App.ClinicalApp.HandleDeleteAccount | App.tsx:189-197 | a logout followed by the confirmation toast |
| App.ClinicalApp.SaveCurrentSession | App.tsx:200-214 | does nothing for an empty chat; otherwise prepends the new session and clears the messages, scenario and analysis |
| App.ClinicalApp.HandleFileUpload | App.tsx:216-249 | a rejected file leaves attachments and uploaded files alone and shows its toast; an accepted file is appended to the attachments and prepended to the uploaded files; the list of uploaded files keeps only checked files |
| App.ClinicalApp.RemoveAttachment | App.tsx:251-253 | removes exactly that index and keeps the others in order; an index out of range changes nothing |
| App.ClinicalApp.HandleScenarioSelect | App.tsx:255-269 | activates the scenario and shows its analysis, prompt and attachment |
| App.ClinicalApp.SetInput | App.tsx:583 | the input becomes the typed value |
| App.ClinicalApp.SetOffline | App.tsx:116-118 | the offline flag becomes the event's value |
| App.ClinicalApp.DismissToast | App.tsx:458 | the toast is cleared |
| App.ClinicalApp.HandleSubmit | App.tsx:271-408 | blocked (a blank input with no attachments, or already processing): nothing changes; offline: only the offline toast; otherwise the results of `Submitted` |
| App.ClinicalApp.Send | App.tsx:279-407 | the user's message appended, the input and attachments cleared, processing ended; in demo mode the scenario's reply and the de-duplicated medicine; otherwise the `ModelAnswer` reply, analysis and error toast |
| App.ClinicalApp.RecordUserTurn | App.tsx:279-297 | the emergency warning when the text names an emergency; the user's message appended; the input and attachments cleared; processing raised |
| App.ClinicalApp.AnswerDemo | App.tsx:304-337 | appends the canned reply; for the medicine scenario, saves the medicine unless one of that name is saved |
| App.ClinicalApp.AnswerWithModel | App.tsx:339-399 | the method that analyses and chats step by step does exactly what `ModelAnswer` specifies |
| App.ClinicalApp.SelectSession | App.tsx:466-469 | the session's messages become the chat, on the dashboard view |
| App.ClinicalApp.DeleteSession | App.tsx:470 | the sessions lose every entry with that id |
| App.ClinicalApp.ToggleFavorite | App.tsx:477 | the medicines become `ToggleFavoriteIn` of the old ones |
| App.ClinicalApp.RemoveMedicine | App.tsx:478 | the medicines become `RemoveMedicineIn` of the old ones |
| App.ClinicalApp.Navigate | App.tsx:430-433 | leaving the dashboard with a chat open saves it first, clearing the chat, the scenario and the analysis; otherwise sessions, chat, scenario and analysis are unchanged; the view changes in every case |
| Dashboard.RiskColor | components/Dashboard.tsx:103-109 | low, medium and high get distinct colours; exactly the strings that are not risk levels get the default |
| Dashboard.HealthScore | components/Dashboard.tsx:137-144 | the health score and risk score add up to 100, and a score in 0..100 gives a score in 0..100 |
| Dashboard.BarTone | components/Dashboard.tsx:141-143 | red exactly above 70, gold exactly in (30, 70], green exactly at or below 30 |
| Dashboard.BarToneMonotone | components/Dashboard.tsx:137-143 | a higher risk score never gives a calmer bar; the bar is red exactly when the health score is below 30 |
| Dashboard.SeverityBadgeAsWritten | components/Dashboard.tsx:189-196 | as written: red exactly for "high", gold exactly for "medium", green for every other string, "critical" included |
| Dashboard.ShowsWarningOfLevels | components/Dashboard.tsx:189-191 | of the four levels, the warning icon marks exactly high and critical |
| Dashboard.CriticalBadgeIsGreen | components/Dashboard.tsx:189-196 | as written, a critical finding shows the warning icon but a green badge, ranked below a medium finding's badge |
| Dashboard.SeverityBadge | components/Dashboard.tsx:189-196 | corrected: red exactly when the warning icon shows (high or critical), gold exactly for medium, green otherwise |
| Dashboard.SeverityBadgeMonotone | components/Dashboard.tsx:189-196 | the corrected badge never ranks a more severe finding below a less severe one |
| Dashboard.BoxToPercent | components/Dashboard.tsx:253-257 | top and left are a tenth of ymin and xmin, top + height and left + width a tenth of ymax and xmax, and a valid box gives values in 0..100 |
| Dashboard.Overlays | components/Dashboard.tsx:250-251 | annotations without a box are skipped: no overlays exactly when no annotation has a box, and one per annotation when all have one |
| Dashboard.OverlaysOfBoxed | components/Dashboard.tsx:250-257 | the overlays are the annotations that have a box, in order, each box scaled by `BoxToPercent` |
| Dashboard.OverlaysInsideImage | components/Dashboard.tsx:250-257 | every overlay of valid boxes lies inside the image |
| Dashboard.DisplayedDescription | components/Dashboard.tsx:315-338 | a description of more than 120 characters that is not expanded shows its first 120 characters and "..."; any other is shown in full |
| Dashboard.NextSelection | components/Dashboard.tsx:319 | clicking the selected card deselects it; clicking any other card selects it |
| Dashboard.ClickTwice | components/Dashboard.tsx:319 | two clicks on a selected card leave it selected; on any other, nothing is selected |
| Dashboard.InitialMetrics | components/Dashboard.tsx:369-371 | the tab starts with every metric name in order, or none without comparisons |
| Dashboard.ToggleMetric | components/Dashboard.tsx:373-379 | a picked metric has every occurrence removed, an unpicked one is appended, and other metrics keep their membership |
| Dashboard.ToggleMetricTwice | components/Dashboard.tsx:373-379 | toggling twice restores which metrics are picked |
| Dashboard.ToggleMetricTwiceMovesToEnd | components/Dashboard.tsx:373-379 | toggling a picked metric twice moves it to the end, with every other metric kept in order |
| Dashboard.SelectedData | components/Dashboard.tsx:381-384 | exactly the comparisons whose metric is picked, in their original order |
| Dashboard.InitialSelectionShowsAll | components/Dashboard.tsx:369-384 | with the initial pick, every comparison is charted |
| Dashboard.TrendArrow | components/Dashboard.tsx:462-468 | up exactly when current > previous, down exactly when current < previous, flat exactly when they are equal |
| Dashboard.TrendBadge | components/Dashboard.tsx:473-474 | green exactly for improving, red exactly for worsening, grey otherwise |
| Dashboard.RowColor | components/Dashboard.tsx:439 | row `idx` gets palette entry `idx % 7`, which is always in bounds |
| Dashboard.RowColorPeriodic | components/Dashboard.tsx:439 | rows seven apart share a colour |
| Dashboard.PointColor | components/Dashboard.tsx:504-505 | a point has no colour exactly when no table row has its metric |
| Dashboard.ChartPointsColored | components/Dashboard.tsx:504-505 | every charted point has the colour of the first table row with its metric |
| Dashboard.DashboardView.constructor | components/Dashboard.tsx:33-34 | the summary tab, nothing selected or expanded, and every metric picked |
| Dashboard.DashboardView.SelectTab | components/Dashboard.tsx:92-94 | switching to another tab mounts it afresh (no card expanded, every metric picked) and keeps the finding selection; reselecting the open tab changes nothing |
| Dashboard.DashboardView.ClickFinding | components/Dashboard.tsx:319 | the selection becomes `NextSelection` of the old one for the clicked finding |
| Dashboard.DashboardView.ToggleExpanded | components/Dashboard.tsx:341-343 | the card's expanded flag flips; the button exists only for a long description |
| Dashboard.DashboardView.ToggleMetricRow | components/Dashboard.tsx:445 | the picked metrics become `ToggleMetric` of the old ones, and only metrics of the data are ever picked |
| Dashboard.DashboardView.ShownDescription | components/Dashboard.tsx:338 | an expanded card shows its description in full, any other the collapsed form |
| Dashboard.DashboardView.Charted | components/Dashboard.tsx:381-384 | only metrics of the data are charted |
| Loader.NextStep | components/Loader.tsx:16 | before the last step the counter advances by one; at the last step it stays |
| Loader.TicksSaturate | components/Loader.tsx:5-16 | after `n` firings the counter stands at `n`, or at the last step once it got there |
| Loader.TicksMonotone | components/Loader.tsx:16 | more firings never move the counter back |
| Loader.StepLoader.constructor | components/Loader.tsx:5 | the counter starts at 0 |
| Loader.StepLoader.Tick | components/Loader.tsx:16 | the counter becomes `NextStep` of the old one, never decreases, and stays a valid index |
| Loader.StepLoader.Message | components/Loader.tsx:38 | the message is `steps[step]`, always defined |
| Loader.StepLoader.Highlighted | components/Loader.tsx:29-32 | the first icon is always lit, no icon past the last step is lit, and a lit icon has every earlier one lit too |
| Loader.StepLoader.Progress | components/Loader.tsx:45 | the fill is in (0, 1] and is full exactly at the last step |
| Loader.TickGrowsHighlight | components/Loader.tsx:29-32 | a tick keeps every lit icon lit, stays in bounds and never shrinks the progress bar |

## Left out

- The Gemini client, the model name, the prompt texts and the response schema are data for
  a foreign library; a remote call is an oracle sequence of settled outcomes.
- `fileToGenerativePart` (FileReader and base64) is a browser API: a file is its name,
  type, size and whether it can be read; its bytes are not modelled.
- `JSON.parse(...) as AnalysisResult` is the parameter `parseJson`. Its successes are
  complete `AnalysisResult` records, so a reply that parses to `null`, to a primitive or to
  an object without `findings` is not modelled; the source guards against the first two at
  App.tsx:365 (`analysisContext || ...`) and against the last at services/geminiService.ts:192.
  The enumerated fields stay raw strings, so no enum or box validation at parse time is
  claimed.
- The `setTimeout` waits of `withRetry` are returned as a list of delays, not waited; the
  1.5-second demo pause, the focus timer and the Loader's 1.5-second interval are timing and
  are not modelled.
- `localStorage` reads and writes are I/O: stored values enter as parameters of the
  constructor and `HandleLogin`, and none of the writes (user, display name, per-user lists,
  removals on logout and account deletion) is modelled.
- `Date.now()` and `new Date()` are one parameter `now` per handler call; ids are its
  decimal string (the reply's id uses `now + 1`) and dates are that number.
- The online/offline listeners are the method `SetOffline`; scrolling, textarea resizing,
  `URL.createObjectURL` (a parameter `objectUrl`), the sidebar toggle, `handleKeyDown` and
  the "thinking" indicator are DOM plumbing.
- The asynchronous steps of `handleSubmit` run as one sequential call; React's batching of
  state updates is not modelled, but the handler's closure values (the messages before the
  new one, the attachments as sent) are.
- The outer `catch` of `handleSubmit` (App.tsx:401-403) is never reached: every modelled
  call either yields a value or has its error caught inside.
- `handleFileUpload` reading only `files[0]` is the parameter `picked`; resetting the file
  input is DOM.
- The SVG chart's percent change and scaling, and `toFixed` (components/Dashboard.tsx:469,
  502-530), are floating-point display arithmetic and divide by `previous`, which may be 0.
- A dashboard receiving new `data` while mounted is not modelled: a `DashboardView` holds one
  analysis.
- Colour class strings are reduced to colour families (`Tone`).
- Case mapping in `ToLower`/`ToUpper` covers ASCII letters only; JavaScript's full Unicode
  case mapping and UTF-16 code units are not modelled.
- The header, landing page, sidebar, footer, chat message, medicine card, upload zone, chat
  interface and views components are rendering; of Views, only the save guard of the
  settings page is kept (`SaveDisplayName`).
- App.NewSession: the stored title and preview are the corrected `SessionText`, not the
  code as written; `SessionTextAsWritten` and `DemoReplyPreviewDiffers` state the difference
  (see "## Findings"). The same holds for `SaveCurrentSession` and `Navigate`, which store
  those sessions.
- constants.ts is fixture data; only the medicine mock and the sample uploads are used.
- App.ClinicalApp.HandleLogin and App.ClinicalApp.HandleGuest require the landing page,
  where the source shows their buttons; the source does not stop a call from elsewhere.

## Findings

| source | as written | input that shows it | evidently intended | confidence | as-written member | corrected member |
|---|---|---|---|---|---|---|
| App.tsx:205-207 | the title and preview fall back to a default only when the text followed by "..." is falsy, which it never is | a file sent with a blank input gives the title "..."; after a demo, the canned reply's empty text gives the preview "..." | "Medical Analysis" / "No preview" when the message has no text | not executed | App.SessionFallbackUnreachable | App.SessionText |
| components/Dashboard.tsx:189-196 | the severity badge is red only for "high", so "critical" falls through to green | a finding with severity "critical" shows the warning icon, which marks exactly high and critical (`ShowsWarningOfLevels`), and a green badge | critical shown at least as alarming as high | not executed | Dashboard.CriticalBadgeIsGreen | Dashboard.SeverityBadgeMonotone |
