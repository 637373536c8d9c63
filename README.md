# Fever-Ai-Doc core, modelled in Dafny

Fever-Ai-Doc is a browser app for fever triage. A patient fills in a form and may attach
photos (rash, tongue, eye, palm, nail, RDT test) and a cough recording. A Gemini model then
returns a diagnosis, which the app adds to a history list. In the live consultation page the
patient talks to a voice agent. That agent asks the page to capture camera frames or record a
cough, and finally hands the gathered evidence over for a diagnosis. A surveillance dashboard
shows synthetic district-level case data classified into trends and alert levels.

This project models the logic of that app that does not depend on the screen or the network:

- `types.dfy` (module `Types`) holds the patient record and the multimodal evidence kinds. The
  patient record is a map from field name to a text value or an attached `{data, mimeType}`,
  as a JavaScript object is.
- `strings.dfy` (module `Strings`) holds the string helpers the source leans on: decimal
  rendering of ids, upper-casing, substring search and `replace` of the first occurrence.
- `surveillance.dfy` (module `Surveillance`) holds trend and alert-level classification. It
  generates per-district regions and alerts, with the random draws taken as parameters, and
  computes the overall statistics and the weekly trend series.
- `gemini.dfy` (module `Gemini`) holds the rest of the Gemini service:
  - the diagnosis prompt and the ordered list of request parts;
  - audio extraction from a text-to-speech response;
  - the tool declarations offered to the live agent.
- `live_spec.dfy` (module `LiveSpec`) holds the pure step functions of the live page:
  - the transcript accumulator;
  - the gapless playback scheduler with barge-in;
  - the tool-call dispatcher and the evidence store;
  - the recorder and flash timers.
- `live_consultation.dfy` (module `LiveConsultation`) holds the class `LiveConsultationPage`. Its
  fields are the page's mutable state, and it has one method per callback:
  - `startSession` and its failure path;
  - `onopen`, `onmessage`, `onclose` and `onerror`;
  - the capture and cough handlers and their timers;
  - the "End" button.
- `app.dfy` (module `AppState`) holds the class `App`, with the page-level state: current page,
  form, photos, multimodal files and previews, and the diagnosis history. It has one method per
  handler. A handler that awaits a remote call is split into `Begin…` (the state change before
  the call, which also returns the request) and `Finish…` (the state change for the call's
  success or failure, given as a parameter).

Quantities the source keeps as floating point are kept exactly:
- case counts are in tenths of a case;
- audio times are in integer ticks (samples);
- averages are reals.

## Model

| member | source | states |
|---|---|---|
| Types.ModalityKeyIsAttachmentKey | types.ts:13-40 | every multimodal evidence kind names an attachment property of the patient record, never the triage `photo` |
| Types.ModalityKeyIsNotTextField | types.ts:15-40 | no multimodal evidence key is also a text field of the form |
| Types.ModalityKeyInjective | types.ts:13 | distinct evidence kinds have distinct property names |
| Types.AllModalitiesListsEach | types.ts:13 | the list of evidence kinds contains every kind exactly once |
| Strings.NatToString | services/surveillanceDataService.ts:54 | the decimal rendering of a number is non-empty, has only digits, and is one character exactly for numbers below ten |
| Strings.NatToStringInjective | services/surveillanceDataService.ts:54 | different numbers render differently |
| Strings.PrefixedNumbersDistinct | services/surveillanceDataService.ts:97 | ids built as a fixed prefix plus different numbers differ |
| Strings.Upper | services/geminiService.ts:92 | upper-casing keeps the length, maps each character independently and leaves no lower-case ASCII letter |
| Strings.FirstIndex | components/LiveConsultationPage.tsx:48 | the search returns the first position where the pattern occurs, or none exactly when it occurs nowhere |
| Strings.RemoveFirst | components/LiveConsultationPage.tsx:48 | `replace(pat, '')` leaves a string without the pattern unchanged and otherwise cuts out exactly its first occurrence |
| Strings.ShiftOccurrences | components/LiveConsultationPage.tsx:48 | an occurrence in the tail of a string is an occurrence one position later in the whole string |
| Surveillance.TrendOf | services/surveillanceDataService.ts:75-82 | the trend of a region from its current count (in tenths) and baseline; its bands are proved in `TrendBands` |
| Surveillance.AlertLevelOf | services/surveillanceDataService.ts:84-88 | the alert level: Critical above 1.4×, High above 1.1×, Moderate above 0.9× the baseline, else Low; proved monotone in `AlertLevelMonotone` |
| Surveillance.TrendBands | services/surveillanceDataService.ts:75-82 | the trend is increasing iff current > 1.2×baseline, decreasing iff current < 0.8×baseline, and stable otherwise |
| Surveillance.AlertLevelMonotone | services/surveillanceDataService.ts:84-88 | for a fixed baseline the alert level never decreases as the current count grows |
| Surveillance.TrendAgreesWithAlertLevel | services/surveillanceDataService.ts:75-88 | an increasing trend implies a High or Critical alert, and a decreasing one implies Low |
| Surveillance.BuildRegion | services/surveillanceDataService.ts:73-104 | one district's region carries its id, name, baseline, current count, trend and alert level as classified from the draws |
| Surveillance.RegionsBuiltFromExtends | services/surveillanceDataService.ts:72-105 | appending the next district's region keeps the list built from the draws in district order |
| Surveillance.BuiltRegionsProperties | services/surveillanceDataService.ts:72-105 | every generated current count is at least 0.7× its baseline and below 1.5× its baseline plus one case (in tenths of a case: 7b ≤ c < 15b + 10), and region ids are pairwise distinct |
| Surveillance.GenerateDynamicRegionData | services/surveillanceDataService.ts:69-107 | exactly one region per district in district order, each built from its draws, with the count bounds and distinct ids above |
| Surveillance.Trigger | services/surveillanceDataService.ts:33-51 | the trigger text for a severity, fever type and drawn spike percentage, as each severity's case writes it |
| Surveillance.RecommendedAction | services/surveillanceDataService.ts:33-51 | the recommended action of each severity; proved to identify the severity in `RecommendedActionIdentifiesSeverity` |
| Surveillance.RecommendedActionIdentifiesSeverity | services/surveillanceDataService.ts:33-51 | the recommended action is determined by the severity alone, and different severities get different actions |
| Surveillance.BuildAlert | services/surveillanceDataService.ts:25-61 | one alert carries its id, district, fever type, severity, trigger text, the action for that severity and the given detection date |
| Surveillance.DaysMovedBack | services/surveillanceDataService.ts:28 | the total number of days `today` has been moved back after the first n alerts |
| Surveillance.DaysMovedBackGrows | services/surveillanceDataService.ts:28 | the running total of days moved back never decreases and is at most seven days per alert so far |
| Surveillance.DaysMovedBackMonotone | services/surveillanceDataService.ts:28 | the running total of days moved back never decreases along the alert list |
| Surveillance.DaysMovedBackAtMostAWeekEach | services/surveillanceDataService.ts:28 | after n alerts the date has moved back at most 7·n days |
| Surveillance.AlertsBuiltFromExtends | services/surveillanceDataService.ts:22-62 | appending the next alert keeps every alert built from its own draw |
| Surveillance.AlertsDatedExtends | services/surveillanceDataService.ts:28 | appending the next alert keeps every alert dated by the total of days moved back so far |
| Surveillance.GenerateDynamicAlerts | services/surveillanceDataService.ts:17-64 | one alert per draw (2 to 6), each built from its draw; detection dates are today minus the running total of days moved back, so they never increase along the list and the i-th lies within 7·(i+1) days before today |
| Surveillance.AlertIdsDistinct | services/surveillanceDataService.ts:54 | with a non-decreasing clock, alert ids `alert-<clock+i>` are pairwise distinct |
| Surveillance.CountUnderHighAlert | services/surveillanceDataService.ts:114 | the count of High/Critical regions is at most the number of regions, is zero iff none is High/Critical, and equals the number of regions iff all are |
| Surveillance.SurveillanceOverallStats | services/surveillanceDataService.ts:112-132 | total active alerts is the number of alerts; regions under high alert is the count of High/Critical regions (at most the regions); with regions, each average times the number of regions is that field's total; with none, every field but the alerts is 0 |
| Surveillance.SumCasesBounds | services/surveillanceDataService.ts:116 | the sum of the current counts lies between n times the lowest and n times the highest bound |
| Surveillance.AverageBetween | services/surveillanceDataService.ts:116-117 | an average of a total bounded by n·a and n·b lies between a and b |
| Surveillance.AverageCasesWithinRange | services/surveillanceDataService.ts:116-117 | the average cases per region lies between the lowest and highest bound on the regions' counts |
| Surveillance.WeekNumber | services/surveillanceDataService.ts:142 | the week of the month is between 1 and 6 and is the ceiling of (day of the month + 6 − the date's own weekday) / 7 |
| Surveillance.WeekLabels | services/surveillanceDataService.ts:139-143 | there are 8 labels, each `Week <n>` for its date's week of the month |
| Surveillance.GenerateTrend | services/surveillanceDataService.ts:145-150 | one point per label, carrying that label, with base + draw clamped at 0 as its count |
| Surveillance.WeeklyFeverTrendData | services/surveillanceDataService.ts:137-157 | the three series each have 8 points, share the same week labels, and have no negative count |
| Surveillance.ClampNeverApplies | services/surveillanceDataService.ts:147-156 | with the source's bases and fluctuations the clamp at 0 never changes a value |
| Gemini.RenderOrNotProvided | services/geminiService.ts:74-75 | an empty or missing optional field is rendered as `Not provided`, otherwise as its text |
| Gemini.PromptValues | services/geminiService.ts:69-85 | the prompt has one slot for each of the twelve text fields |
| Gemini.UserPrompt | services/geminiService.ts:67-85 | the diagnosis prompt: the fixed template with the twelve rendered text fields in order; proved to read only those fields in `UserPromptReadsTextFieldsOnly` |
| Gemini.UserPromptReadsTextFieldsOnly | services/geminiService.ts:67-85 | two records that agree on the twelve text fields get the same prompt, so attachments never leak into the prompt text |
| Gemini.AttachmentOf | services/geminiService.ts:89-90 | a value passes `if (data)` iff the key holds a truthy value (an attachment, or a non-empty text), and it is that value |
| Gemini.InlinePart | services/geminiService.ts:92 | the inline part carries an attachment's base64 and MIME type; for a text value both fields are `undefined` |
| Gemini.Section | services/geminiService.ts:91-95 | the three parts one truthy value contributes: `[START OF X]`, its inline data, `[END OF X]` |
| Gemini.Sections | services/geminiService.ts:99-105 | the reference list of the sections of the truthy values in slot order; `AddParts` is proved to build it |
| Gemini.CountPresent | services/geminiService.ts:99-105 | the number of truthy values is at most the number of slots |
| Gemini.AddPart | services/geminiService.ts:89-97 | a missing or falsy value adds nothing; a truthy one appends its START / inline data / END section |
| Gemini.AddParts | services/geminiService.ts:99-105 | adding the slots in order appends exactly their sections, in order |
| Gemini.AssembleDiagnosisParts | services/geminiService.ts:87-107 | the first part is the text prompt, followed by the sections of the truthy values in the fixed order, so there are 1 + 3×(present) parts |
| Gemini.SectionsLength | services/geminiService.ts:89-105 | the sections are three parts per truthy value |
| Gemini.SectionsPrefix | services/geminiService.ts:99-105 | the sections of the first n slots are a prefix of the sections of all slots |
| Gemini.SectionOfSlot | services/geminiService.ts:89-105 | a truthy value in slot k adds three consecutive parts right after those of the earlier slots: `[START OF X]`, the inline data (an attachment's own data and MIME type, or both `undefined` for a non-empty text), and `[END OF X]`, with X the upper-cased description |
| Gemini.AbsentSlotAddsNothing | services/geminiService.ts:90 | a missing key or an empty text adds no part |
| Gemini.TextUnderAttachmentKeyAddsSection | services/geminiService.ts:89-98 | a record whose `rashPhoto` is the text `yes` still gets a Rash Photo section, right after the prompt, whose inline data and MIME type are both `undefined` |
| Gemini.FirstInlineData | services/geminiService.ts:174-178 | the optional chain `candidates?.[0]?.content?.parts?.[0]?.inlineData?.data` |
| Gemini.HasAudio | services/geminiService.ts:174-178 | the response carries non-empty audio data at that path |
| Gemini.SpeechRequestText | services/geminiService.ts:164 | the text sent for speech ends with the caller's text |
| Gemini.ExtractAudio | services/geminiService.ts:174-178 | extraction succeeds iff the first candidate's first part carries inline data, returns exactly that data, and otherwise fails with the given message |
| Gemini.TextToSpeech | services/geminiService.ts:160-179 | text-to-speech returns audio iff the response has it, else its fixed error |
| Gemini.RdtGuideAudio | services/geminiService.ts:195-216 | the RDT guide returns audio iff the response has it, else its own fixed error |
| Gemini.SpeechHelpersAgree | services/geminiService.ts:174-178 | the two speech helpers extract the same audio from the same response |
| Gemini.DeclarationsConsistent | services/geminiService.ts:218-258 | every required property of a live tool is declared; `captureFrameFor` requires `modality` from six values; every `triggerDiagnosis` property is a patient field |
| Gemini.TriggerDiagnosisOmitsFields | services/geminiService.ts:239-258 | `triggerDiagnosis` does not declare `cvConfidence` or `additionalSymptoms`, so a live handoff never fills them |
| LiveSpec.TranscriptStep | components/LiveConsultationPage.tsx:164-177 | one message's effect on the transcript: append output, replace user text, and on turn completion move the chunk to the instruction and clear the rest; proved in `TranscriptAccumulates`, `TurnCompletes` and `InputReplaces` |
| LiveSpec.TranscriptAccumulates | components/LiveConsultationPage.tsx:164-167 | until a turn completes, output fragments are appended in arrival order and the instruction is untouched |
| LiveSpec.TurnCompletes | components/LiveConsultationPage.tsx:172-177 | on turn completion the accumulated text becomes the instruction and the chunk, shown text and user text are cleared |
| LiveSpec.InputReplaces | components/LiveConsultationPage.tsx:168-170 | input transcription replaces the user text rather than appending to it |
| LiveSpec.Schedule | components/LiveConsultationPage.tsx:198-207 | a decoded chunk is appended as a new source starting at max(cursor, now), and the cursor moves to its end |
| LiveSpec.ScheduleChunk | components/LiveConsultationPage.tsx:197-210 | one chunk with audio: the cursor moves up to the clock, and a decoded chunk is scheduled there, a failed decode adds nothing |
| LiveSpec.PlaybackStep | components/LiveConsultationPage.tsx:196-220 | one message's effect on playback: schedule its audio first, then stop everything on an interrupt; proved to keep the invariant in `PlaybackStepPreservesValid` |
| LiveSpec.Interrupt | components/LiveConsultationPage.tsx:213-220 | a barge-in stops every tracked source, empties the set and resets the cursor to 0 |
| LiveSpec.RemoveSource | components/LiveConsultationPage.tsx:204 | an ended source leaves the set and every other source stays |
| LiveSpec.RemoveSourceKeepsOrder | components/LiveConsultationPage.tsx:204 | removing an ended source keeps the remaining sources in their order |
| LiveSpec.PlaybackStepPreservesValid | components/LiveConsultationPage.tsx:196-220 | one message keeps the playback invariant (sources ordered, non-overlapping, ending by the cursor, ids below the counter) |
| LiveSpec.SourceEndedPreservesValid | components/LiveConsultationPage.tsx:204 | removing an ended source keeps the playback invariant |
| LiveSpec.AudioWithInterruptIsStopped | components/LiveConsultationPage.tsx:196-220 | a chunk arriving with an interrupt is scheduled first and then stopped along with the rest |
| LiveSpec.NextChunkAfterInterruptStartsNow | components/LiveConsultationPage.tsx:198-219 | after an interrupt the next chunk starts at the current clock time |
| LiveSpec.FailedDecodeAddsNothing | components/LiveConsultationPage.tsx:198-210 | a chunk whose decode fails adds no source and advances the cursor by no duration |
| LiveSpec.BackToBack | components/LiveConsultationPage.tsx:198-207 | the reference back-to-back layout has one source per chunk |
| LiveSpec.GaplessWhenAhead | components/LiveConsultationPage.tsx:198-207 | chunks that each arrive before the audio already scheduled has finished play back-to-back from the cursor with no gap or overlap, and the cursor advances by their total duration |
| LiveSpec.CaptureFrame | components/LiveConsultationPage.tsx:43-74 | `handleCaptureFrame`: early return without video, canvas or modality; the status, indicator and flash timer without a 2-D context; otherwise also the stored frame, the preview and one response; proved in `CaptureStoresFrame` and `CaptureWithoutFrameStoresNothing` |
| LiveSpec.RecordCough | components/LiveConsultationPage.tsx:76-105 | `handleRecordCough`: nothing without a stream; otherwise the status, indicator, a new recorder for this call and a cough timer |
| LiveSpec.CoughTimerFired | components/LiveConsultationPage.tsx:86-103 | the 5 s timer stops a recording recorder, whose `onstop` stores the `audio/webm` cough, marks the preview and answers its own call; proved in `CoughAnsweredOnce` |
| LiveSpec.FlashTimerFired | components/LiveConsultationPage.tsx:51 | the 700 ms timer clears the capture indicator |
| LiveSpec.TriggerDiagnosis | components/LiveConsultationPage.tsx:188-191 | the corrected `triggerDiagnosis`: a close request and a handoff of the current evidence overridden by the arguments; proved in `HandoffCarriesCurrentEvidence` |
| LiveSpec.TriggerDiagnosisAsWritten | components/LiveConsultationPage.tsx:190 | `triggerDiagnosis` as written: the handoff spreads the evidence held when the session started; shown stale in `StaleEvidenceInHandoff` |
| LiveSpec.DispatchCall | components/LiveConsultationPage.tsx:181-192 | the `switch` on one call's name: capture, cough, diagnosis, or nothing for any other name |
| LiveSpec.DispatchCalls | components/LiveConsultationPage.tsx:179-194 | the calls of one message dispatched in list order; its responses are characterised in `DispatchResponses` |
| LiveSpec.Handoff | components/LiveConsultationPage.tsx:190 | the handoff holds every argument as text, keeps every evidence entry the arguments do not override, and holds nothing else |
| LiveSpec.ImmediateResponses | components/LiveConsultationPage.tsx:179-193 | a message's calls produce at most one immediate response each |
| LiveSpec.DispatchResponses | components/LiveConsultationPage.tsx:179-193 | handling the calls in list order appends exactly their immediate responses, in order |
| LiveSpec.ResponsesEchoCalls | components/LiveConsultationPage.tsx:68-72 | every immediate response carries the id and name of a `captureFrameFor` call of the message |
| LiveSpec.CaptureStoresFrame | components/LiveConsultationPage.tsx:43-74 | a capture with the camera ready stores `{frame, image/jpeg}` under the modality's key, overwriting only that key, and sends one response with the call's id, name and `Successfully captured <modality without Photo>.` |
| LiveSpec.DeclaredModalitiesHaveEvidenceKeys | components/LiveConsultationPage.tsx:63 | every modality the `captureFrameFor` declaration offers is stored under an attachment property of the patient record, and distinct modalities under distinct keys |
| LiveSpec.EvidenceKeyOfModality | components/LiveConsultationPage.tsx:63 | `rdtPhoto` is stored under `photo`, every other modality under its own name |
| LiveSpec.CaptureWithoutFrameStoresNothing | components/LiveConsultationPage.tsx:44-54 | without a modality, video, canvas or context the capture stores nothing and sends no response |
| LiveSpec.UnknownCallIgnored | components/LiveConsultationPage.tsx:181-192 | a call with an unknown name changes nothing and gets no response |
| LiveSpec.CoughAnsweredOnce | components/LiveConsultationPage.tsx:76-105 | one cough request is answered exactly once, however often the recorder timer fires |
| LiveSpec.OverlappingCoughLeavesFirstUnanswered | components/LiveConsultationPage.tsx:82-103 | a second cough request before the first finishes replaces the pending recorder, and the first call never gets a response |
| LiveSpec.StaleEvidenceInHandoff | components/LiveConsultationPage.tsx:190 | with the handoff as written, a photo captured during the session is missing from the diagnosis payload |
| LiveSpec.HandoffCarriesCurrentEvidence | components/LiveConsultationPage.tsx:179-193 | with the corrected handoff, the payload holds all evidence currently captured, overridden by the call's arguments |
| Strings.Contains | components/LiveConsultationPage.tsx:253 | `includes` holds exactly when some position of the string starts with the pattern |
| LiveConsultation.StartFailureStatus | components/LiveConsultationPage.tsx:251-258 | a start failure shows the error text verbatim if it mentions `API_KEY`, otherwise the fixed camera/microphone message |
| LiveConsultation.ErrorStatus | components/LiveConsultationPage.tsx:238 | a session error shows its message, or the fixed live-session message when the message is empty |
| LiveConsultation.LiveConsultationPage.constructor | components/LiveConsultationPage.tsx:19-37 | the page starts inactive, with pending permission, the ready status, no evidence, an empty transcript and an empty playback that satisfies the playback invariant |
| LiveConsultation.LiveConsultationPage.StartSession | components/LiveConsultationPage.tsx:111-259 | a start while active changes nothing; a granted stream holds the new stream with live tracks, attaches the video if there is an element, grants permission, activates the session with two open audio contexts, shows `Starting session...`, clears the transcript chunk, resets cursor and source set, and changes nothing else; a failure denies permission, deactivates, shows the failure status and changes nothing else |
| LiveConsultation.LiveConsultationPage.OnOpen | components/LiveConsultationPage.tsx:146-162 | opening sets the connected status and connects the microphone processor, nothing else |
| LiveConsultation.LiveConsultationPage.HandleCaptureFrame | components/LiveConsultationPage.tsx:43-74 | the tools state becomes the capture step's result, and nothing else changes |
| LiveConsultation.LiveConsultationPage.HandleRecordCough | components/LiveConsultationPage.tsx:76-105 | the tools state becomes the cough-request step's result, given whether a stream exists |
| LiveConsultation.LiveConsultationPage.OnMessage | components/LiveConsultationPage.tsx:163-221 | one message advances the transcript, dispatches its calls in order and steps playback (schedule, then interrupt), and leaves the session flags alone |
| LiveConsultation.LiveConsultationPage.UpdateTranscript | components/LiveConsultationPage.tsx:164-177 | the transcript takes one accumulator step |
| LiveConsultation.LiveConsultationPage.HandleFunctionCalls | components/LiveConsultationPage.tsx:179-194 | the loop over the calls yields the in-order dispatch of all of them |
| LiveConsultation.LiveConsultationPage.PlayChunk | components/LiveConsultationPage.tsx:196-211 | playback takes the scheduling step for one decoded (or failed) chunk |
| LiveConsultation.LiveConsultationPage.StopAllSources | components/LiveConsultationPage.tsx:213-220 | the loop over the sources yields the interrupt step: all stopped, none left, cursor 0 |
| LiveConsultation.LiveConsultationPage.OnFlashTimer | components/LiveConsultationPage.tsx:51 | the flash timer turns the capture flash off |
| LiveConsultation.LiveConsultationPage.OnCoughTimer | components/LiveConsultationPage.tsx:86-103 | the recorder timer stores the cough audio and answers the pending call |
| LiveConsultation.LiveConsultationPage.OnSourceEnded | components/LiveConsultationPage.tsx:204 | an ended source is removed and the playback invariant is kept |
| LiveConsultation.LiveConsultationPage.Teardown | components/LiveConsultationPage.tsx:227-234 | the microphone is released, the processor disconnected, and each audio context closed once only if still open |
| LiveConsultation.LiveConsultationPage.OnClose | components/LiveConsultationPage.tsx:222-235 | closing makes the session inactive with pending permission and status `Session ended.`, closes only still-open contexts and drops them, stops the stream's tracks, detaches the video, disconnects the processor, and changes nothing else |
| LiveConsultation.LiveConsultationPage.OnError | components/LiveConsultationPage.tsx:236-248 | an error makes the session inactive, keeps the permission, shows the error status, and performs the same context, track, video and processor cleanup as closing, changing nothing else |
| LiveConsultation.LiveConsultationPage.EndConsultation | components/LiveConsultationPage.tsx:344 | the End button requests a session close and a page exit |
| LiveConsultation.LiveConsultationPage.EffectCleanup | components/LiveConsultationPage.tsx:262-266 | the effect cleanup requests a session close exactly when the render it cleans up had an active session, and changes nothing else |
| LiveConsultation.OnMessageKeepsPlaybackValid | components/LiveConsultationPage.tsx:196-220 | every message keeps the playback invariant |
| AppState.DefaultForm | App.tsx:52-56 | the default form has exactly the twelve text fields |
| AppState.DefaultFormFields | App.tsx:52-56 | the default form has `cvConfidence` `85` and every other field empty, and its triage payload keeps `85` |
| AppState.CvConfidenceOf | App.tsx:122 | the payload's confidence is the form's when that is non-empty, otherwise `85`, and never empty |
| AppState.AttachFiles | App.tsx:129-136 | each listed modality with a file gets its `{base64, mimeType}` under its own key; characterised in `AttachFilesEffect` |
| AppState.TriagePayload | App.tsx:120-136 | the payload `handleTriageSubmit` builds: the form with defaulted confidence, the triage photo and the multimodal files; characterised in `TriagePayloadProperties` |
| AppState.AttachFilesEffect | App.tsx:129-136 | each present multimodal file is attached under its own key; absent ones, non-attachment keys and `photo` are unchanged |
| AppState.TriagePayloadProperties | App.tsx:120-136 | the payload has a non-empty confidence, `photo` only from the triage photo, each present file under its key, and every other form field unchanged |
| AppState.AssembleTriagePayload | App.tsx:120-136 | the loop over the multimodal files builds exactly the triage payload |
| AppState.Stamped | App.tsx:106 | a saved diagnosis keeps its report and carries the given time |
| AppState.ShownDiagnosis | App.tsx:310 | the report page shows the selected past diagnosis if any, otherwise the current one |
| AppState.Framed | App.tsx:149 | an error message is the fixed prefix, the detail and the fixed suffix |
| AppState.FramedDetailRecoverable | App.tsx:149 | the error detail can be read back from the framed message |
| AppState.PreviewUrls | App.tsx:72-73 | the preview URLs held for the listed modalities, which the handlers revoke; characterised in `PreviewUrlsExact` |
| AppState.PreviewUrlsExact | App.tsx:72-73 | a URL is revoked iff it is the preview of one of the listed modalities |
| AppState.ResetRevokesEveryPreview | App.tsx:262 | reset revokes exactly the preview URLs of all modalities |
| AppState.App.constructor | App.tsx:20-66 | the app starts on home with the default form, no photos or files, and an empty history |
| AppState.App.HandleMultimodalChange | App.tsx:68-82 | only the given modality's file changes; its preview becomes the new URL or none; its old preview is revoked |
| AppState.App.HandleFormChange | App.tsx:84-87 | only the named field changes |
| AppState.App.HandleTriagePhotoChange | App.tsx:89-95 | a chosen file becomes the triage photo and preview; an empty choice changes nothing |
| AppState.App.HandleMedicationPhotoChange | App.tsx:97-103 | a chosen file becomes the medication photo and preview; an empty choice changes nothing |
| AppState.App.SaveDiagnosis | App.tsx:105-109 | the new timestamped diagnosis goes to the front of the history, and the old entries keep their order |
| AppState.App.BeginTriageSubmit | App.tsx:111-137 | the page goes to loading with the triage message and no error, and the request is the triage payload |
| AppState.App.FinishTriageSubmit | App.tsx:138-151 | success saves and shows the stamped diagnosis on the report page; failure goes to the error page with the framed message |
| AppState.App.BeginMedicationCheck | App.tsx:154-164 | without a medication photo, the app goes to the error page with a fixed message and never enters loading; with one, it enters loading and requests that photo |
| AppState.App.FinishMedicationCheck | App.tsx:165-181 | success shows the medication report; failure goes to the error page with the framed message |
| AppState.App.BeginDiagnosisFromLiveCall | App.tsx:184-193 | the patient data is merged over the form with its fields winning, the page goes to loading, and the request is the patient data |
| AppState.App.FinishDiagnosisFromLiveCall | App.tsx:194-209 | success saves and shows the stamped diagnosis; failure goes to the error page with the framed message |
| AppState.App.ViewPastDiagnosis | App.tsx:213-217 | the chosen past diagnosis becomes the one shown on the report page |
| AppState.App.Navigate | App.tsx:266-272 | a navigation button sets the page and nothing else |
| AppState.App.FillSampleData | App.tsx:224-240 | the form becomes the sample patient |
| AppState.App.ResetApp | App.tsx:243-264 | back to home with the default form, no photos, empty file and preview maps, every preview revoked, and the history kept |

## Left out

- Browser media plumbing is not modelled: `getUserMedia`, `AudioContext`, `ScriptProcessorNode`, `MediaRecorder`, canvas drawing and `toDataURL`. Their results are inputs instead: the camera state, the captured frame, the recorded blob, the decode outcome and its duration, and the clock.
- Microphone streaming (`onaudioprocess`, the float-to-PCM conversion at components/LiveConsultationPage.tsx:152-159) is not modelled. It is floating point and calls `utils/audio`, which is not part of this model; neither is `utils/image`.
- The remote SDK is not modelled: `ai.live.connect`, `generateContent`, chat sessions, the clinic and medication lookups, and the JSON parsing of model output. Each call's outcome is a parameter of the `Finish…` method or of the TTS extraction.
- The client factory `getAiClient` (services/geminiService.ts:7-14) is configuration and is left out.
- Concurrency across awaits is not modelled. Each `onmessage` call runs atomically. In `App`, other handlers may run between a `Begin…` and its `Finish…`; each method is stated on its own.
- LiveSpec.PlaybackStep: the barge-in guarantees (`AudioWithInterruptIsStopped`, `NextChunkAfterInterruptStartsNow`) hold for one message taken as a whole. The source keeps no generation counter. A chunk whose decode (awaited at components/LiveConsultationPage.tsx:200, after the cursor is raised at :198) is still pending when an interrupt message stops the sources (:213-219) later resumes, starts and joins `sources`; that stale chunk is heard and is not stopped. Whether the decode yields to other messages depends on utils/audio, which is not part of this model.
- `localStorage` persistence of the history (App.tsx:17, 30-49) is I/O and is left out.
- `Math.random`, `Date.now()` and the calendar are parameters: random draws constrained to their ranges, the clock in milliseconds, and the days of the month of the eight weekly dates together with the weekday those dates share (`getDay()`). Alert detection dates are day numbers, not formatted dates.
- The `setTimeout` latency of the async surveillance wrappers (services/surveillanceDataService.ts:161-186) is left out. `getOverallSurveillanceStats` computes its stats from freshly generated data; the model computes them from the data it is given.
- Surveillance.SurveillanceOverallStats: the averages are exact reals, without the `toFixed(1)` rounding to one decimal.
- Surveillance.TrendBands: the thresholds are compared exactly in tenths of a case. Floating-point rounding of `1.2 * baseline` and similar products is not modelled.
- Strings.Upper: only ASCII letters are upper-cased. `toUpperCase` on other scripts is not modelled.
- Rendering is not modelled: all components other than the live page, the SVG chart, date formatting and the evidence bar order.
- The diagnosis and medication reports are kept as opaque text.
- The triage and medication photo previews are not revoked on reset; the source does not revoke them either.
- `handleTriageSubmit` copies the multimodal files with `for…in` in insertion order. The model visits the evidence kinds in a fixed order; the result is the same because each kind has its own key.
- Unknown tool names get no response: the `switch` at components/LiveConsultationPage.tsx:181-192 has no default branch (`LiveSpec.UnknownCallIgnored`). The text orchestrator, by contrast, answers an unknown call with an explanatory message (components/FeverOrchestratorPage.tsx:155); that page is not part of this model.
- LiveConsultation.LiveConsultationPage.OnMessage: its `triggerDiagnosis` branch hands off the corrected merge over the evidence held now, not the start-time evidence the source's closure reads at components/LiveConsultationPage.tsx:190 (see Findings). `session.evidenceAtStart` records that start-time evidence, but no method of the class reads it; only `LiveSpec.TriggerDiagnosisAsWritten` uses it.
- A tool call whose `args` is undefined makes `fc.args.modality` throw at components/LiveConsultationPage.tsx:183, and the rest of that message is never handled. In the model every call carries an argument map, possibly empty, so this abort is not modelled.
- A start that fails after `getUserMedia` succeeds (components/LiveConsultationPage.tsx:118-131) leaves the stream held and attached. In the model a start either succeeds as a whole or fails before any stream is taken.
- An error without a `message` makes `error.message.includes` (components/LiveConsultationPage.tsx:251) throw inside the catch. In the model every failure has a message string.
- A zero-size video frame makes `toDataURL` return `data:,`, so the stored data is empty and the preview is `data:,`. The model always builds the preview as `data:image/jpeg;base64,` plus the frame.
- LiveSpec.Schedule and the other playback members use integer ticks for audio times, not the source's floating-point seconds.

## Findings

| source | as written | input that shows it | evidently intended | confidence | as-written member | corrected member |
|---|---|---|---|---|---|---|
| components/LiveConsultationPage.tsx:190 | `triggerDiagnosis` hands off `{...capturedData, ...fc.args}`, reading `capturedData` from the `onmessage` closure built when the session was started. Re-creating `startSession` when `capturedData` changes (line 260) does not reach the session already connected. | A session that captures a rash photo with `captureFrameFor` and then calls `triggerDiagnosis` without a `rashPhoto` argument: the payload has no `rashPhoto`. | The handoff carries all the evidence captured in the session, overridden by the call's arguments. | not executed | LiveSpec.TriggerDiagnosisAsWritten, LiveSpec.StaleEvidenceInHandoff | LiveSpec.TriggerDiagnosis, LiveSpec.HandoffCarriesCurrentEvidence |
