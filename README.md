# Audio call analyzer — a Dafny model of its core logic

The application takes a recorded customer-service call, transcribes it with
an AI provider (OpenAI or Replicate), checks the transcript against a list of
quality requirements with a second AI call, and shows the result in a
four-step wizard (upload, requirements, processing, results). This project
models, in Dafny, the deterministic logic around those calls:

- the analysis service: the prompt with its bullet list of requirements, the
  choice of provider, the cleanup of the reply (default `"{}"`, removal of
  Markdown code fences, trimming, the `{`…`}` slice of a Replicate reply) and
  the shape of a well-formed result (`analysis_service.dfy`);
- the transcription service: provider choice, the base64 data URI and the
  joining of timed chunks with single spaces (`transcription_service.dfy`);
- the two route handlers, `/analyze-audio` and `/reanalyze`: reading the
  form, the validation guard, the numbered requirement list, and the mapping
  of every outcome to 200, 400 or 500 (`analyze_audio_route.dfy`,
  `reanalyze_route.dfy`, on top of `http.dfy` and `json.dfy`);
- the requirements step and the configuration dialog as classes whose
  methods update their fields the way the React handlers update state
  (`analysis_requirements.dfy`, `config_modal.dfy`, with the list updates in
  `requirements.dfy`);
- the wizard page: its step machine, the list of requirements sent for
  analysis, the simulated result and the report text (`wizard.dfy`);
- the processing screen: the mm:ss clock, log timestamps, step indicators and
  labels, and the error view (`processing_status.dfy`);
- the upload drop handler (`audio_uploader.dfy`).

The JavaScript built-ins the code relies on are modelled exactly where a
property depends on them: `trim` with the ECMAScript whitespace set,
`join`, `indexOf`/`lastIndexOf`, `substring` with its clamping and swapping,
`padStart`, `splice`, `filter`, truthiness, `String(value)` and object spread
(`strings.dfy`, `seqs.dfy`, `json.dfy`).

The provider SDK calls, base64 encoding and `JSON.parse` are not defined:
they are function-valued parameters (`Providers.Services`, `Json.Parser`),
so every property holds whatever they return. Clock readings (`Date.now()`
ids, the report date) and the API key read from local storage are
parameters too.

How the handlers treat unusual requests:

- Both handlers accept an empty requirements array: it passes every guard.
  Requirements text that is not JSON makes `JSON.parse` throw before any
  guard runs, so the answer is 500. In `/analyze-audio` a truthy value that
  is not an array (a string, a number, an object) also passes the guard,
  and the request fails later with 500.
- A requirement that is an object with its own `toString` entry, directly
  or inside a nested array, cannot be rendered in a template literal: the
  prompt is never built, no provider is called, and both handlers answer
  500.
- `/analyze-audio` has no size or platform check. The 20 MiB limit exists
  only in the browser's drop handler.

## Model

| member | source | states |
|---|---|---|
| `Strings.TrimStart` | src/lib/ai/AIAnalysisService.ts:90 | the result is a suffix of the input |
| `Strings.TrimStartDropsWhitespace` | src/lib/ai/AIAnalysisService.ts:90 | everything dropped at the front is whitespace |
| `Strings.TrimStartKeepsNoLead` | src/lib/ai/AIAnalysisService.ts:90 | what is kept after dropping the front does not start with whitespace |
| `Strings.TrimEnd` | src/lib/ai/AIAnalysisService.ts:90 | the result is a prefix of the input |
| `Strings.TrimEndDropsWhitespace` | src/lib/ai/AIAnalysisService.ts:90 | everything dropped at the back is whitespace |
| `Strings.TrimEndKeepsNoTrail` | src/lib/ai/AIAnalysisService.ts:90 | what is kept after dropping the back does not end with whitespace |
| `Strings.TrimEdges` | src/lib/ai/AIAnalysisService.ts:90 | the trimmed text has no whitespace at either end |
| `Strings.TrimEmptyIffBlank` | src/components/analysis-requirements.tsx:53 | the trimmed text is empty exactly when the input is all whitespace, which is the blank-input test of the forms |
| `Strings.TrimIsSlice` | src/lib/ai/AIAnalysisService.ts:90 | the trimmed text is a contiguous slice of the input, starting where the leading whitespace ends |
| `Strings.TrimIdempotent` | src/app/api/reanalyze/route.ts:72 | trimming twice is trimming once |
| `Strings.TrimKeepsAbsent` | src/lib/ai/AIAnalysisService.ts:90 | trimming never makes a pattern appear |
| `Strings.OccursInSlice` | src/lib/ai/AIAnalysisService.ts:90 | a pattern found in a slice is found in the whole text |
| `Strings.JoinAppend` | src/lib/ai/AITranscriptionService.ts:44 | joining a concatenation puts exactly one separator between the two joined halves |
| `Strings.JoinLength` | src/lib/ai/AITranscriptionService.ts:44 | a join of n strings has their total length plus n - 1 separators |
| `Strings.PadStart` | src/components/processing-status.tsx:43 | a string at least as wide is unchanged; a shorter one gets exactly the missing copies of the filler in front |
| `Strings.NatToString` | src/components/processing-status.tsx:43 | decimal digits only, never empty, one digit exactly below 10 |
| `Strings.DecimalRoundTrip` | src/components/processing-status.tsx:43 | reading back the decimal notation of a number gives the number |
| `Strings.NatToStringInjective` | src/components/config-modal.tsx:146 | different numbers have different decimal notations |
| `Strings.LeadingZeros` | src/components/processing-status.tsx:43 | zeros put in front of a digit string do not change its value |
| `Strings.IndexOf` | src/lib/ai/AIAnalysisService.ts:102 | -1 exactly when the character is absent; otherwise its first position |
| `Strings.LastIndexOf` | src/lib/ai/AIAnalysisService.ts:103 | -1 exactly when the character is absent; otherwise its last position |
| `Seqs.Filter` | src/components/analysis-requirements.tsx:63-65 | only elements that pass are kept, and every element that passes is kept |
| `Seqs.FilterAppend` | src/components/config-modal.tsx:158 | filtering keeps the input order: it distributes over concatenation |
| `Seqs.FilterKeepsAll` | src/components/config-modal.tsx:158 | when every element passes, the list is unchanged |
| `Seqs.SpliceOne` | src/components/analysis-requirements.tsx:68-72 | the in-place shift of `splice(index, 1)`, with negative and out-of-range indexes clamped: for a valid index exactly that element is gone and the rest keep their order, otherwise nothing changes |
| `Json.Display` | src/app/api/reanalyze/route.ts:36 | a string renders as itself; an object throws exactly when it has its own "toString" entry; an array throws exactly when one of its elements does |
| `Json.DisplayAll` | src/app/api/reanalyze/route.ts:36 | succeeds exactly when every element renders, and then gives one rendering per element, in order |
| `Json.DisplayStrings` | src/lib/ai/AIAnalysisService.ts:38 | a list of strings renders as those strings |
| `Json.OwnToStringThrows` | src/lib/ai/AIAnalysisService.ts:38 | one element with its own "toString" entry makes the whole rendering throw |
| `Json.Spread` | src/app/api/reanalyze/route.ts:74-76 | an object keeps its entries, an array or string gives one entry per index, any other value gives an empty object |
| `AnalysisService.Bullets` | src/lib/ai/AIAnalysisService.ts:38 | one `- <req>` line per requirement, in order |
| `AnalysisService.BulletListSnoc` | src/lib/ai/AIAnalysisService.ts:38 | the empty list gives an empty slot; each added requirement adds one separator and one bullet at the end |
| `AnalysisService.PromptLayout` | src/lib/ai/AIAnalysisService.ts:33-76 | the bullet list sits right after the intro and the transcript verbatim inside the closing quoted block |
| `AnalysisService.ContentOrDefault` | src/lib/ai/AIAnalysisService.ts:89 | missing or empty content becomes `"{}"`; other content is kept |
| `AnalysisService.StripFencesLeavesNoFence` | src/lib/ai/AIAnalysisService.ts:90 | after the left-to-right removal of "```json" and "```", no "```" is left |
| `AnalysisService.StripFencesPlain` | src/lib/ai/AIAnalysisService.ts:90 | text without "```" is returned unchanged |
| `AnalysisService.StripFencesKeepsPlainRun` | src/lib/ai/AIAnalysisService.ts:90 | a run without backticks is kept verbatim, in order, in front of what the rest strips to |
| `AnalysisService.StripFencesDropsJsonFence` | src/lib/ai/AIAnalysisService.ts:90 | a leading "```json" is removed and nothing else is touched |
| `AnalysisService.StripFencesDropsFence` | src/lib/ai/AIAnalysisService.ts:90 | a leading "```" not followed by "json" is removed and nothing else is touched |
| `AnalysisService.FencedReply` | src/app/api/reanalyze/route.ts:71-72 | a backtick-free reply wrapped in "```json … ```", in "``` … ```" or in nothing is cleaned to its own trimmed text |
| `AnalysisService.StripFencesIdempotent` | src/lib/ai/AIAnalysisService.ts:90 | removing fences twice is removing them once |
| `AnalysisService.CleanupResult` | src/lib/ai/AIAnalysisService.ts:90 | the cleaned text has no fence and no whitespace at either end |
| `AnalysisService.CleanupPlain` | src/lib/ai/AIAnalysisService.ts:90 | text without "```" is only trimmed |
| `AnalysisService.DefaultContentCleanup` | src/lib/ai/AIAnalysisService.ts:89-90 | a missing or empty reply is cleaned to `{}` |
| `AnalysisService.ReplicatePiecesConcatenate` | src/lib/ai/AIAnalysisService.ts:99 | the output pieces are concatenated with no separator |
| `AnalysisService.ExtractJsonSlice` | src/lib/ai/AIAnalysisService.ts:102-104 | with a `{` before a `}`, the slice runs from the first `{` to the last `}` inclusive |
| `AnalysisService.DelimitedSlice` | src/lib/ai/AIAnalysisService.ts:102-104 | for any two delimiters, the `substring` from the first opening one to one past the last closing one is the plain slice between them, delimiters included |
| `AnalysisService.ExtractJsonDegenerate` | src/lib/ai/AIAnalysisService.ts:102-104 | without that, the clamped and swapped `substring` gives the empty text or a slice that is not an object |
| `AnalysisService.RequirementResultsJson` | src/lib/ai/AIAnalysisService.ts:9-14 | one JSON object per requirement result, in order |
| `AnalysisService.ReadRequirementResults` | src/lib/ai/AIAnalysisService.ts:9-14 | a successful read has one result per array element |
| `AnalysisService.RequirementResultsRoundTrip` | src/lib/ai/AIAnalysisService.ts:9-14 | a list of requirement results written as JSON reads back as itself |
| `AnalysisService.SchemaRoundTrip` | src/lib/ai/AIAnalysisService.ts:6-17 | every result of the schema's shape, written as JSON, reads back as itself, with or without a summary |
| `AnalysisService.Analyze` | src/lib/ai/AIAnalysisService.ts:28-108 | requirements that are not an array, or that hold an element that cannot be rendered, fail with a type error on either platform, and only then |
| `AnalysisService.OpenAIPath` | src/lib/ai/AIAnalysisService.ts:78-90 | platform "openai" depends only on the chat call and the parser, and parses the cleaned reply |
| `AnalysisService.ReplicatePath` | src/lib/ai/AIAnalysisService.ts:91-106 | every other platform value depends only on the Replicate call and the parser, and parses the extracted slice |
| `AnalysisService.ProseReplyFails` | src/lib/ai/AIAnalysisService.ts:99-106 | a Replicate reply with no braces gives a parse failure, not an empty result |
| `TranscriptionService.AudioDataUri` | src/lib/ai/AITranscriptionService.ts:33-35 | the fixed header followed by the encoded audio, untouched |
| `TranscriptionService.AudioDataUriInjective` | src/lib/ai/AITranscriptionService.ts:33-35 | the data URI determines the encoded audio |
| `TranscriptionService.ChunkTexts` | src/lib/ai/AITranscriptionService.ts:44 | one text per chunk, in order |
| `TranscriptionService.JoinChunksShape` | src/lib/ai/AITranscriptionService.ts:44 | no chunk gives "", one chunk gives its text unchanged, n chunks give total length plus n - 1 |
| `TranscriptionService.JoinChunksAppend` | src/lib/ai/AITranscriptionService.ts:44 | joining a split chunk list puts one space between the two joined halves |
| `TranscriptionService.Transcribe` | src/lib/ai/AITranscriptionService.ts:13-47 | succeeds exactly when the selected provider's call does; failures are provider errors |
| `TranscriptionService.TranscribeDispatch` | src/lib/ai/AITranscriptionService.ts:16-46 | "openai" returns the Whisper text verbatim; every other value returns the joined chunks of the call on the data URI |
| `ReanalyzeRoute.NumberedLines` | src/app/api/reanalyze/route.ts:36 | line i is the number i + 1, ". " and the i-th requirement |
| `ReanalyzeRoute.NumberedLinesSnoc` | src/app/api/reanalyze/route.ts:36 | an added requirement adds one line numbered with the new length |
| `ReanalyzeRoute.NumberedListSnoc` | src/app/api/reanalyze/route.ts:36 | the lines are joined with newlines in input order; the empty list gives "" |
| `ReanalyzeRoute.PromptLayout` | src/app/api/reanalyze/route.ts:26-59 | the transcript sits verbatim after the opening quote and the numbered list right before the closing text |
| `ReanalyzeRoute.Post` | src/app/api/reanalyze/route.ts:4-84 | status is 200, 400 or 500; 400 exactly when the requirements parse but a field is falsy or they are not an array; fixed error bodies; a 200 body is an object |
| `ReanalyzeRoute.MalformedRequirementsFail` | src/app/api/reanalyze/route.ts:5-21 | requirements text that is not JSON gives 500 even when every other field is missing |
| `ReanalyzeRoute.MissingRequirementsRejected` | src/app/api/reanalyze/route.ts:9-21 | a missing requirements field reads as null and gives 400 |
| `ReanalyzeRoute.EmptyRequirementsAccepted` | src/app/api/reanalyze/route.ts:11-76 | an empty array passes the guard: the chat gets the prompt with an empty numbered list and the answer is built from its reply |
| `ReanalyzeRoute.ValidRequestReachesChat` | src/app/api/reanalyze/route.ts:26-76 | a request that passes the guard sends the prompt built from the transcript and the rendered requirements, and is answered from the reply; when a requirement cannot be rendered, the answer is 500 instead |
| `ReanalyzeRoute.OwnToStringRequirementFails` | src/app/api/reanalyze/route.ts:26-83 | a requirement object with its own "toString" entry passes the guard, gives 500, and the chat's reply does not matter |
| `ReanalyzeRoute.EmptyReplyGivesEmptyObject` | src/app/api/reanalyze/route.ts:69-76 | a reply with missing or empty content gives 200 with an empty object |
| `ReanalyzeRoute.SuccessIsSpread` | src/app/api/reanalyze/route.ts:61-76 | a 200 answer comes from a successful chat call on the prompt for this request, and its body is the spread of the value parsed from the cleaned reply |
| `AnalyzeAudioRoute.Process` | src/lib/ai/AIProcessingService.ts:13-28 | a failed transcription fails; otherwise the analysis of the transcript decides |
| `AnalyzeAudioRoute.Post` | src/app/api/analyze-audio/route.ts:8-35 | status is 200, 400 or 500; 400 exactly when the requirements parse and the key, the audio or the requirements are falsy; fixed error bodies; 500 exactly when the requirements do not parse or the guard passes and `process` fails |
| `AnalyzeAudioRoute.PassedGuardAnswered` | src/app/api/analyze-audio/route.ts:20-33 | a request past the guard is answered 200 with the value of `process` when it succeeds, and 500 when it fails |
| `AnalyzeAudioRoute.SuccessComposes` | src/app/api/analyze-audio/route.ts:21-27 | a 200 body is the analysis of the transcript of this very audio |
| `AnalyzeAudioRoute.MalformedRequirementsFail` | src/app/api/analyze-audio/route.ts:14-34 | requirements text that is not JSON gives 500, before the guard |
| `AnalyzeAudioRoute.NonArrayRequirementsFailLate` | src/app/api/analyze-audio/route.ts:16-27 | truthy requirements that are not an array pass the guard and give 500 |
| `AnalyzeAudioRoute.OwnToStringRequirementFails` | src/app/api/analyze-audio/route.ts:16-33 | a requirement object with its own "toString" entry passes the guard and gives 500 |
| `AnalyzeAudioRoute.EmptyRequirementsAccepted` | src/app/api/analyze-audio/route.ts:16 | an empty array is not rejected with 400 |
| `AnalyzeAudioRoute.NoSizeCheck` | src/app/api/analyze-audio/route.ts:16-27 | replacing the uploaded file by one of any size does not change whether the answer is 400 |
| `Requirements.Toggled` | src/components/analysis-requirements.tsx:44-50 | only `selected` of the entries with the id flips; length, order, ids and texts are kept |
| `Requirements.ToggleTwice` | src/components/analysis-requirements.tsx:44-50 | toggling the same id twice restores the list |
| `Requirements.WithSelected` | src/components/config-modal.tsx:434-440 | the entries with the id get exactly the given value; the others are unchanged |
| `Requirements.ToggleIsSelect` | src/components/config-modal.tsx:434-440 | toggling equals setting to the negation when the matching entries agree; setting twice is setting once |
| `Requirements.WithText` | src/components/config-modal.tsx:177-179 | only the text of the entries with the id changes; ids and `selected` are kept |
| `Requirements.WithTextAbsent` | src/components/config-modal.tsx:177-179 | editing an id no entry has changes nothing |
| `Requirements.WithoutId` | src/components/config-modal.tsx:158 | no entry with the id is left and every other entry stays |
| `Requirements.WithoutIdAbsent` | src/components/config-modal.tsx:158 | deleting an absent id changes nothing; deleting twice is deleting once |
| `AnalysisRequirements.WithoutSuggestion` | src/components/analysis-requirements.tsx:63-65 | every copy of the requirement leaves the suggestions and every other suggestion stays |
| `AnalysisRequirements.WithoutAbsentSuggestion` | src/components/analysis-requirements.tsx:63-65 | removing a suggestion that is not offered changes nothing |
| `AnalysisRequirements.RequirementsForm.constructor` | src/components/analysis-requirements.tsx:35-42 | empty input and the five initial suggestions |
| `AnalysisRequirements.RequirementsForm.TogglePredefined` | src/components/analysis-requirements.tsx:44-50 | the predefined list is toggled and nothing else changes |
| `AnalysisRequirements.RequirementsForm.SetNewRequirement` | src/components/analysis-requirements.tsx:121-124 | the input text is replaced and nothing else changes |
| `AnalysisRequirements.RequirementsForm.AddCustom` | src/components/analysis-requirements.tsx:52-57 | blank input changes nothing; otherwise the untrimmed text is appended, duplicates allowed, and the input cleared |
| `AnalysisRequirements.RequirementsForm.KeyDown` | src/components/analysis-requirements.tsx:74-79 | only Ctrl+Enter acts, and then as `addCustomRequirement`: blank text changes nothing, other text is appended and the box cleared |
| `AnalysisRequirements.RequirementsForm.AddSuggested` | src/components/analysis-requirements.tsx:59-66 | a requirement already in the custom list changes nothing; otherwise it is appended and leaves the suggestions |
| `AnalysisRequirements.RequirementsForm.RemoveCustom` | src/components/analysis-requirements.tsx:68-72 | a valid index removes exactly that element and keeps the rest in order |
| `ConfigModal.ApiKeys.With` | src/components/config-modal.tsx:127-128 | the given platform's key is replaced and the other key kept |
| `ConfigModal.KeysOf` | src/components/config-modal.tsx:60-63 | a missing stored key shows as "" and a stored one as itself |
| `ConfigModal.SavedKeysReload` | src/components/config-modal.tsx:103-108 | keys saved as typed are the keys shown when the dialog opens again |
| `ConfigModal.NewId` | src/components/config-modal.tsx:146 | "req-" followed by the decimal clock reading |
| `ConfigModal.NewIdInjective` | src/components/config-modal.tsx:146 | distinct clock readings give distinct ids |
| `ConfigModal.ConfigDialog.constructor` | src/components/config-modal.tsx:48-71 | empty working list and edit state; platform and keys from the page's configuration |
| `ConfigModal.ConfigDialog.Open` | src/components/config-modal.tsx:76-88 | opening reloads the working list, platform and keys from the page |
| `ConfigModal.ConfigDialog.Close` | src/components/config-modal.tsx:238 | only the dialog closes |
| `ConfigModal.ConfigDialog.ChangeTab` | src/components/config-modal.tsx:208-210 | only the active tab changes |
| `ConfigModal.ConfigDialog.SelectPlatform` | src/components/config-modal.tsx:260-264 | only the selected platform changes |
| `ConfigModal.ConfigDialog.TypeApiKey` | src/components/config-modal.tsx:296-300 | only the selected platform's key is replaced |
| `ConfigModal.ConfigDialog.SaveAIConfig` | src/components/config-modal.tsx:91-123 | a blank key stores nothing; otherwise the platform and both keys are stored as typed, an OpenAI key also in local storage, and the dialog closes from the platform tab |
| `ConfigModal.ConfigDialog.DeleteApiKey` | src/components/config-modal.tsx:126-140 | only the selected platform's key is emptied; the stored configuration is not touched |
| `ConfigModal.ConfigDialog.TypeNewRequirement` | src/components/config-modal.tsx:375 | only the new-requirement text changes |
| `ConfigModal.ConfigDialog.AddRequirement` | src/components/config-modal.tsx:143-154 | blank input is ignored; otherwise one unchecked entry with the untrimmed text is appended and the input cleared |
| `ConfigModal.ConfigDialog.DeleteRequirement` | src/components/config-modal.tsx:157-165 | all entries with the id go; the edit state is cleared only if that id was being edited |
| `ConfigModal.ConfigDialog.StartEditing` | src/components/config-modal.tsx:168-171 | the edit state is set and the list untouched |
| `ConfigModal.ConfigDialog.TypeEditingText` | src/components/config-modal.tsx:406 | only the edited text changes |
| `ConfigModal.ConfigDialog.SaveEdit` | src/components/config-modal.tsx:174-184 | no-op without an edit or with blank text; otherwise only the edited entry's text changes and the edit state is cleared |
| `ConfigModal.ConfigDialog.CancelEdit` | src/components/config-modal.tsx:187-190 | the edit state is cleared and the list untouched |
| `ConfigModal.ConfigDialog.SetSelected` | src/components/config-modal.tsx:433-441 | the entries with the id become checked exactly when the value is `true` |
| `ConfigModal.ConfigDialog.SaveRequirements` | src/components/config-modal.tsx:193-205 | the working list becomes the page's list; the dialog closes from the requirements tab |
| `Wizard.Texts` | src/app/page.tsx:119 | one text per entry, in order |
| `Wizard.SelectedTextsMembers` | src/app/page.tsx:117-119 | the texts of exactly the checked entries |
| `Wizard.SelectedTextsAppend` | src/app/page.tsx:117-119 | selection keeps the input order |
| `Wizard.SelectedTextsEmpty` | src/app/page.tsx:89-91 | no selected text exactly when nothing is checked |
| `Wizard.AllSelectedTexts` | src/app/page.tsx:117-119 | with everything checked, all texts in order |
| `Wizard.AllRequirements` | src/app/page.tsx:121 | the selected predefined texts followed by the custom requirements |
| `Wizard.SubmitGuardMeansNonEmpty` | src/app/page.tsx:88-101 | the guard passes exactly when the list to send is not empty |
| `Wizard.FindSelected` | src/app/page.tsx:151-153 | true exactly when the first entry with the id is checked |
| `Wizard.FindSelectedDistinct` | src/app/page.tsx:151-173 | with distinct ids, true exactly when the entry with the id is checked |
| `Wizard.MockSummaryHead` | src/app/page.tsx:182-192 | opens with the call length and ends with a space |
| `Wizard.MockFindingsReflectSelection` | src/app/page.tsx:148-173 | each simulated finding is present exactly when its requirement is checked |
| `Wizard.MockCustomAnalysis` | src/app/page.tsx:174-180 | one custom result per custom requirement, in order, naming it |
| `Wizard.MockSummaryShape` | src/app/page.tsx:182-195 | the summary ends with the custom sentence exactly when there are custom requirements |
| `Wizard.ReportLayout` | src/app/page.tsx:215-232 | the report opens with the title and date and closes with the summary |
| `Wizard.AudioAnalyzer.constructor` | src/app/page.tsx:16-66 | step 1, no file, the five default requirements checked, nothing custom, no results |
| `Wizard.AudioAnalyzer.HandleFileAccepted` | src/app/page.tsx:69-72 | the file is stored and the step becomes 2 |
| `Wizard.AudioAnalyzer.SetRequirements` | src/app/page.tsx:272-275 | only the two requirement lists change |
| `Wizard.AudioAnalyzer.SetConfigOpen` | src/app/page.tsx:259 | only the dialog flag changes |
| `Wizard.AudioAnalyzer.ProcessAudio` | src/app/page.tsx:107-200 | status goes transcribing, analyzing, summarizing; the sent list is the assembled requirements; results set and step 4 |
| `Wizard.AudioAnalyzer.HandleRequirementsSubmit` | src/app/page.tsx:74-105 | no key opens the dialog and keeps the step; nothing selected keeps everything; otherwise steps 3 then 4 with a non-empty list sent |
| `Wizard.AudioAnalyzer.HandleReset` | src/app/page.tsx:205-210 | step 1, no file, no results, empty status; requirement lists kept |
| `ProcessingStatus.PaddedValue` | src/components/processing-status.tsx:43 | zero padding to two places keeps the value |
| `ProcessingStatus.FormatTimeRoundTrip` | src/components/processing-status.tsx:40-44 | the clock reads back as minutes and seconds below 60 whose minutes × 60 + seconds is the input |
| `ProcessingStatus.FormatTimeWidth` | src/components/processing-status.tsx:43 | five characters below 100 minutes; larger minute counts are written in full |
| `ProcessingStatus.LogTimestamp` | src/components/processing-status.tsx:70 | the smaller of 3i + 2 and the elapsed time, so never past the elapsed time |
| `ProcessingStatus.StepIndicatorCases` | src/components/processing-status.tsx:117-126 | active exactly when unfinished and current, done exactly at 100, pending otherwise (also above 100) |
| `ProcessingStatus.ProgressLabel` | src/components/processing-status.tsx:129-135 | no label exactly when progress is not positive; the percentage below 100; "Completado" from 100 |
| `ProcessingStatus.LogLines` | src/components/processing-status.tsx:67-79 | one line per message with its clamped timestamp; highlighted only in the error view and only for messages starting with "Error" |
| `ProcessingStatus.ErrorViewSelection` | src/components/processing-status.tsx:47-106 | the error view is chosen by status "error" alone, whatever the progress, with a non-empty message |
| `ProcessingStatus.HighlightRule` | src/components/processing-status.tsx:72-76 | a log line is highlighted exactly in the error view for messages starting with "Error" |
| `ProcessingStatus.LogTimesWithinElapsed` | src/components/processing-status.tsx:214-218 | each log stamp is at most the elapsed time and reads back as a valid clock |
| `AudioUploader.Uploader.constructor` | src/components/audio-uploader.tsx:16 | no error shown |
| `AudioUploader.Uploader.OnDrop` | src/components/audio-uploader.tsx:18-39 | any rejection shows the format error; an empty drop changes nothing; over 20 MiB shows the size error; otherwise the error is cleared and the first file passed on, at most once |
| `AudioUploader.SizeBoundary` | src/components/audio-uploader.tsx:32-35 | exactly 20 MiB is accepted and one byte more is refused |
| `AudioUploader.OnlyFirstFileMatters` | src/components/audio-uploader.tsx:29 | files after the first do not change the outcome |

## Left out

- The OpenAI and Replicate SDK calls, model names and `zodResponseFormat` are external; they are parameters of the services, and the properties hold for any result they give.
- `JSON.parse` is a parameter (`Json.Parser`); the model stops at the text handed to it. Lemmas that need a particular parse, such as `"{}"` giving an empty object or `""` being rejected, take it as a precondition.
- Base64 encoding and the `File`/`Blob` wrapping of the upload are library calls; the encoding is a parameter.
- The glue in `src/lib/ai/AIProcessingService.ts` is inlined as `AnalyzeAudioRoute.Process`. Its `JSON.stringify` branch is never taken, because both providers yield a string.
- Async sequencing and the `simulateDelay` timers in the page: `HandleRequirementsSubmit` runs `ProcessAudio` to its end. Ghost traces record the statuses and steps that are set along the way.
- `localStorage`, toasts, clipboard, the report download, tabs and dialog rendering are browser I/O. The stored key is a parameter of `HandleRequirementsSubmit`. The dialog's write of the OpenAI key is a field (`legacyKey`).
- `Date.now()` and `new Date().toLocaleDateString()` are parameters (`now`, `date`).
- The show/hide toggle of the key field, the platform names, URLs and placeholders in the configuration dialog are presentation only.
- How the page wires the dialog and the requirements step to its own state is not modelled. Each component's class holds the lists it receives and updates them through their setters.
- The MIME type, extension and `maxFiles` filtering of the drop zone is done by the library; the handler sees only its accepted and rejected lists.
- Progress values are whole percentages, so `Math.round` is the identity; fractional progress is not modelled.
- Presentation-only files (results display, help page, footer, logo, theme provider, site config, Tailwind plugin) hold no logic.
- JSON numbers are integers in the model; fractional and exponent numbers would render differently through `String(value)`.
- Dafny strings are sequences of Unicode scalar values, while JavaScript strings are UTF-16 code units. Outside the Basic Multilingual Plane, indexes, lengths and the per-index entries of a spread string differ.
- A failure of `req.formData()` itself (a body that is not a form) is not modelled. It would give 500 like every other exception.
- `Json.Spread`: states the entry at every index of an array or string, but not that there are no other keys.
- `Json.Display`: the text a number, a boolean, null or an array renders as is not stated. The contract states when rendering throws and how a string renders. Strings are what the UI sends.
