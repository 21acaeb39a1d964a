# Training-job cloud functions and dashboard state machines, in Dafny

This project models the logic of a set of AI-training and health dashboards
and their Parse cloud functions. It does not model the rendering.

- **Cloud functions (`cloud_main.js`).**
  - `startModelTraining` creates a TrainingJob and submits it to the ML service.
  - `checkTrainingStatus` is a background job. It polls the service and then does one of three things: completes the job and fans out derived records, marks the job failed, or re-schedules itself in five minutes.
  - `getPerformanceMetrics` lists the caller's newest accuracy records as chart rows.
  - `getResourceUsage` returns a random sample.
- **Page logic.** The progress tickers, search filters and small state machines of:
  - the training centre;
  - the unified app;
  - the multi-material printer panel;
  - the health dashboard's body scan and camera;
  - the AI training dashboard.

A cloud function is a pure function that computes its **plan**: the sequence of backend calls (`Effect`s) it makes, in source order. `TrainingJobs.Run` executes a plan against a map from awaited call to the message that call throws. Execution stops at the first awaited call that throws, and the function's `catch` block sees that message. Calls that are not awaited cannot throw into the handler: `Parse.Cloud.startJob` and the job's `message`.

A page timer is a discrete tick. A `setInterval` that can be started again while an earlier one is still running (resubmitting a command, restarting the simulation) becomes a count of running tickers. Each firing belongs to one of them.

Modules:

| module | file | models |
|---|---|---|
| `Wrappers` | wrappers.dfy | `Option`, `Result` |
| `JsValues` | js_values.dfy | JavaScript values, truthiness, `1 - v` |
| `Text` | text.dfy | ASCII `toLowerCase`, `includes`, capitalisation, `split(c)[0]` |
| `IsoTime` | iso_time.dfy | `Date.prototype.toISOString` (ECMA-262 day/year/month arithmetic) |
| `TrainingJobs` | training_jobs.dfy | records, effects, the plan runner |
| `StartTraining` | cloud_start.dfy | `startModelTraining` |
| `StatusCheck` | cloud_status.dfy | `checkTrainingStatus` |
| `PerformanceMetrics` | cloud_metrics.dfy | `getPerformanceMetrics`, `getResourceUsage` |
| `LineSearch` | line_search.dfy | the case-insensitive production-line search |
| `ProgressBadge` | progress_badge.dfy | the "Complete" / "In Progress" badge |
| `TrainingCentre` | training_centre.dfy | training-centre.tsx |
| `UnifiedApp` | unified_app.dfy | unified-app.tsx |
| `Printer` | printer.dfy | `TrainingCentre2` in src_pages_index.tsx |
| `Dashboard` | dashboard.dfy | dashboard.tsx |
| `AiTraining` | ai_training.dfy | ai-training-dashboard.tsx |

Behaviour of the code that a reader might not expect, and that the model follows:

- The status check re-schedules itself by passing `{ in: 5 * 60 }` to `startJob`: a fixed 300 seconds, recorded as the check's requested delay. There is no backoff, no cancellation, and no guard against creating the same job twice. Every write is a plain `save()`.
- The ModelPerformance, ABTest and AutoTuneResult saves and the `versionModel` call all run before the completed job itself is saved (cloud_main.js:70-123). A throw in between, such as one from `versionModel`, leaves the ModelPerformance record and any ABTest and AutoTuneResult stored, and the job's stored status unchanged (`StatusCheck.VersionFaultLeavesJobUnsaved`).
- `startJob` is called without a delay, so the first status check starts at once. The model's first check has delay 0.

## Model

| member | source | states |
|---|---|---|
| TrainingJobs.Run | cloud_main.js:24-51 | The executed calls form a prefix of the plan, and none of them throws. The run is cut short exactly when some awaited call throws. In that case the next call of the plan is one that throws, and its message is the one reported. |
| TrainingJobs.RunWithoutFaults | cloud_main.js:24-48 | When no call of the plan throws, the whole plan runs and nothing is reported. |
| TrainingJobs.LastSavedJob | cloud_main.js:123 | The job as last written is absent exactly when no executed call writes the job. Otherwise it is the job written by the last executed call that writes it. |
| TrainingJobs.SummarizeConcat | cloud_main.js:58-126 | What a run leaves behind (checks started, records saved, job written) composes over the concatenation of plans. |
| TrainingJobs.ProjectionsOfPrefix | cloud_main.js:58-126 | A run cut short leaves a prefix of each list of checks and records that the whole plan would leave. |
| StartTraining.StartModelTraining | cloud_main.js:4-51 | Without a caller: `INVALID_SESSION_TOKEN` "User must be authenticated.", with no backend call. Any other failure: `INTERNAL_SERVER_ERROR` whose message starts "Failed to start training job: ". |
| StartTraining.StartSucceedsIff | cloud_main.js:24-48 | A start succeeds exactly when none of its three awaited calls throws: the first save, the POST, and the second save. |
| StartTraining.StartSuccess | cloud_main.js:16-22 | On success, the reply is the job id with "Training job started successfully". Exactly one immediate status check runs, for the job id and the service's job id. The stored job belongs to the caller, has status "started", copies modelType, dataset, abTesting, autoTuning and hyperparameters from the parameters, and carries the service's job id. |
| StartTraining.StartFailure | cloud_main.js:24-51 | On failure, no status check is started. If the first save threw, nothing happened and the message is the prefix plus that save's error. Otherwise the job is stored as "started" with no external id. If the POST threw, the message is the prefix plus the POST's error. |
| StartTraining.StartPostsRequest | cloud_main.js:28-36 | The ML service receives the new job's id, the caller's id and the parameters unchanged. |
| StatusCheck.CheckTrainingStatus | cloud_main.js:54-127 | A run that catches an error logs "Error checking training status: " plus the message and never writes the job. A job id that does not exist gives no effect and logs that prefix followed by "Object not found.". |
| StatusCheck.CheckCompleted | cloud_main.js:66-109 | If nothing throws on "completed", the job is written as completed. Exactly one ModelPerformance is saved, with metric "accuracy", the reported accuracy, and user, modelType and dataset copied from the job. An ABTest is saved iff abTesting is truthy, an AutoTuneResult iff autoTuning is truthy, `versionModel` is called with the job id and the accuracy, and no check is started. |
| StatusCheck.CheckFailed | cloud_main.js:110-113 | If nothing throws on "failed", the job is written as failed with the service's error. No record is saved and no check is started. |
| StatusCheck.CheckPending | cloud_main.js:114-123 | Any other status starts exactly one check of the same job and external id, requested with a 300 s delay, even when the final save throws, and saves no record. Without a throw, the job is written back with its status unchanged. |
| StatusCheck.CheckRechecksAtMostOnce | cloud_main.js:116-119 | Whatever is reported and whatever throws, a run starts at most one check, and only for the same ids with a requested delay of 300 s. |
| StatusCheck.CheckRecordsOnlyOnCompletion | cloud_main.js:66-101 | Derived records are saved only for an existing job reported "completed". The saved records are always a prefix of the records that job and report determine. |
| StatusCheck.CheckVersionAfterRecords | cloud_main.js:103-107 | `versionModel` is called only after all derived records were saved, and it receives the job id and the reported accuracy. |
| StatusCheck.VersionFaultLeavesJobUnsaved | cloud_main.js:103-126 | If `versionModel` throws, the accuracy record is already stored, and so are the ABTest iff abTesting is truthy and the AutoTuneResult iff autoTuning is truthy. The job's new status is never saved, and the error is logged. |
| PerformanceMetrics.OwnedBy | cloud_main.js:165 | The query keeps exactly the caller's records. |
| PerformanceMetrics.SortNewestFirst | cloud_main.js:166 | Records ordered by `createdAt`, newest first, as a permutation of the input. |
| PerformanceMetrics.SelectRecords | cloud_main.js:163-168 | The reply holds min(10, number of caller's records) of the caller's records, newest first, each stored record at most once (a sub-multiset of the caller's records). |
| PerformanceMetrics.SelectionKeepsNewest | cloud_main.js:166-167 | Every caller record cut off by the limit is no newer than every record returned. |
| PerformanceMetrics.SelectionComplete | cloud_main.js:167 | With ten records or fewer, all of them are returned. |
| PerformanceMetrics.RowOf | cloud_main.js:170-174 | A row's date is the ISO timestamp up to 'T'. Its accuracy is the stored value. Its loss is a number exactly when the value converts to one, and then loss + value = 1. |
| PerformanceMetrics.GetPerformanceMetrics | cloud_main.js:155-177 | Without a caller: `INVALID_SESSION_TOKEN`. A failing query: `INTERNAL_SERVER_ERROR` "Failed to fetch performance metrics: " plus the cause. Otherwise, one row per selected record. |
| PerformanceMetrics.MetricsRowsOfCaller | cloud_main.js:163-174 | At most ten rows. Row i is the row of the i-th selected record, which belongs to the caller, and the selected records are newest first. |
| PerformanceMetrics.GetResourceUsage | cloud_main.js:133-153 | An anonymous caller gets `INVALID_SESSION_TOKEN` and nothing else does. Each percentage lies in [0, 100). |
| JsValues.Truthy | cloud_main.js:82-94 | Objects are truthy and strings are truthy exactly when non-empty. For every other value, truthiness agrees with the numeric conversion: the value is truthy exactly when it converts to a number other than 0 and NaN. |
| JsValues.ToNumber | cloud_main.js:173 | A number converts to itself, and `undefined` converts to NaN. `null`, booleans and the empty string convert to finite numbers: `true` to 1 and `false` to 0. |
| JsValues.OneMinus | cloud_main.js:173 | `1 - v` is a number exactly when ToNumber(v) is, and then it adds to v's number to give 1. |
| IsoTime.YearOfDay | cloud_main.js:171 | The year found for a day is the unique year whose day range contains it. |
| IsoTime.CivilFromDays | cloud_main.js:171 | The calendar date of a day is a valid date that maps back to that day. |
| IsoTime.CivilRoundTrip | cloud_main.js:171 | Converting a valid date to its day number and back gives the same date. |
| IsoTime.PadDigitsRoundTrip | cloud_main.js:171 | A zero-padded decimal field reads back as the number written. |
| IsoTime.ToIsoString | cloud_main.js:171 | `toISOString()` is the date text of the instant's UTC day, then 'T', then the clock text, then 'Z'. The date part contains no 'T', and the clock text sits between 'T' and 'Z'. |
| IsoTime.IsoClockPart | cloud_main.js:171 | The twelve characters between 'T' and 'Z' have the `HH:mm:ss.sss` shape. Their fields read back as hours, minutes, seconds and milliseconds that add up to the instant's millisecond offset within its UTC day. |
| IsoTime.ClockTextReadsBack | cloud_main.js:171 | The clock text's hours are below 24, and its minutes and seconds are below 60. Together with the milliseconds, its fields give the offset back. |
| IsoTime.IsoDate | cloud_main.js:171 | `toISOString().split('T')[0]` is the date text of the instant's UTC day. |
| IsoTime.IsoDatePart | cloud_main.js:171 | `toISOString().split('T')[0]` is exactly the date part "YYYY-MM-DD". |
| IsoTime.IsoLength | cloud_main.js:171 | For years 0-9999 the ISO string is 24 characters, with 'T' at index 10 and 'Z' at index 23. |
| IsoTime.SameDaySameDate | cloud_main.js:171 | Two instants of the same UTC day get the same date. |
| IsoTime.DifferentDayDifferentDate | cloud_main.js:171 | Instants of different UTC days get different calendar dates. |
| Text.Lower | unified-app.tsx:391 | Lower-casing keeps the length, leaves no upper-case letter, and changes only upper-case letters. |
| Text.LowerIdempotent | training-centre.tsx:57 | Lower-casing twice is lower-casing once. |
| Text.Includes | training-centre.tsx:57 | The empty string is included in every string, and every string includes itself. A string never includes a longer one. |
| Text.IncludesIffOccurs | training-centre.tsx:57 | `s.includes(t)` holds exactly when t occurs at some position of s. |
| Text.Capitalize | src_pages_index.tsx:92 | Same length and the rest unchanged. The first character is the upper-case form of the original: a lower-case letter becomes upper case, and anything else leaves the string as it was. |
| Text.BeforeFirst | cloud_main.js:171 | `split(c)[0]` is a prefix without c, followed by c or by the end of the string. |
| Text.BeforeFirstOfJoin | cloud_main.js:171 | Splitting head + c + tail at c, when head has no c, gives head. |
| LineSearch.FilterLines | unified-app.tsx:390-392 | The result holds exactly the lines whose lower-cased name contains the lower-cased term, each as often as in the input. |
| LineSearch.FilterLinesConcat | training-centre.tsx:56-58 | Filtering distributes over concatenation, so kept lines keep their order. |
| LineSearch.FilterLinesEmptyTerm | training-centre.tsx:57 | An empty term keeps every line. |
| LineSearch.FilterLinesIgnoresTermCase | unified-app.tsx:391 | The search does not depend on the case of the term. |
| TrainingCentre.FilterCategories | training-centre.tsx:54-59 | The result holds exactly the narrowed categories that still have lines, and none without lines. |
| TrainingCentre.CategorySurvives | training-centre.tsx:54-59 | A category is shown exactly when one of its lines matches the term. |
| TrainingCentre.FilterCategoriesConcat | training-centre.tsx:54-59 | Surviving categories keep their order. |
| TrainingCentre.FilterCategoriesEmptyTerm | training-centre.tsx:54-59 | An empty search shows every category that has lines, unchanged. |
| TrainingCentre.BarTick | training-centre.tsx:72-80 | A firing at 100 or more gives 100 and stops that ticker. Otherwise it adds 10. A bar that is a multiple of 10 in [0, 100] stays one. |
| TrainingCentre.Step | training-centre.tsx:61-91 | Selecting a line records it and empties both bars. Submitting empties both bars, starts a print ticker and arms the assembly timeout. Apart from a submission and the assembly timeout, no event starts a ticker. |
| TrainingCentre.RunKeepsBarsValid | training-centre.tsx:67-91 | Under any interleaving of events and any number of tickers, both bars stay multiples of 10 in [0, 100]. |
| TrainingCentre.LoneTicker | training-centre.tsx:72-80 | A ticker started on an empty bar shows 10·n after n firings, is full after exactly 10, and stops on the 11th. |
| TrainingCentre.TimelineFollowsEvents | training-centre.tsx:66-91 | On a fresh page, a submission followed by n print firings, the 5000 ms timeout and m assembly firings leaves the event machine's bars equal to the timeline's bars at n·500 ms and 5000 + m·500 ms. |
| TrainingCentre.PrintCommutesWithAssembly | training-centre.tsx:72-91 | A print firing and an assembly event change different bars, so firings at the same instant can run in either order. |
| TrainingCentre.SubmissionTimeline | training-centre.tsx:72-91 | The assembly bar shows what the print bar showed 5000 ms earlier. The print badge reads "Complete" from 5000 ms after submission and the assembly badge from 10000 ms, never before. |
| ProgressBadge.BadgeFor | training-centre.tsx:186-188 | The badge reads "Complete", with the filled variant, exactly when the progress equals 100. |
| UnifiedApp.GenerateHealthData | unified-app.tsx:74-83 | Exactly one reading per draw, carrying that draw's vitals. `Date.now()` is read once per reading: reading i lies at least a minute before the clock value read for it. The last reading is exactly one minute before its clock value, and the first is count minutes before its own. |
| UnifiedApp.GeneratedTimesIncrease | unified-app.tsx:76 | When the clock does not run backwards, timestamps strictly increase, by at least one minute per position. The gap is exactly one minute per position when both readings saw the same clock value. |
| UnifiedApp.LiveUpdate | unified-app.tsx:257 | A non-empty window keeps its length, drops the oldest reading and ends with the new one. |
| UnifiedApp.LiveWindowSlides | unified-app.tsx:246-257 | After k ticks (k at most the window length), the window is its last entries followed by the k new readings. |
| UnifiedApp.ToggleSimulation | unified-app.tsx:316-320 | The running flag flips. Starting resets both values and adds a ticker. Pausing changes nothing else, so tickers keep running. |
| UnifiedApp.SimulationTick | unified-app.tsx:321-331 | Below 100, print grows by one and assembly takes the old print value. At 100 or more, both are 100 and the ticker stops. |
| UnifiedApp.SimulationStepsKeepBounds | unified-app.tsx:316-331 | Toggles and firings, in any order and with any number of tickers, keep 0 ≤ assembly ≤ print ≤ 100. |
| UnifiedApp.LoneSimulationTicker | unified-app.tsx:316-331 | After n firings of a lone ticker, print = n and assembly = n-1 for 1 ≤ n ≤ 100. The firing after that gives both 100 and removes the ticker. Pausing does not affect this. |
| UnifiedApp.FilteredLineNames | unified-app.tsx:390-392 | A line is listed exactly when its name matches the term case-insensitively. |
| UnifiedApp.LineColor | unified-app.tsx:156-164 | The colour is something other than gray exactly for the four known lines. |
| UnifiedApp.LineColorsDistinct | unified-app.tsx:156-164 | The four known lines get four different colours. |
| UnifiedApp.SetKeyUpdatesMap | unified-app.tsx:372 | Saving a key sets the selected provider's key and leaves every other provider's key unchanged. |
| UnifiedApp.SetKeyEntries | unified-app.tsx:372 | After a save, providers are still unique, the provider's entry carries the new key, and the other entries are unchanged. |
| UnifiedApp.SetKeyKeepsOrder | unified-app.tsx:777 | The key list keeps its order. A new provider is listed last. |
| UnifiedApp.SetKey | unified-app.tsx:372 | A save adds exactly one entry for a new provider and none for a known one. |
| UnifiedApp.Reset | unified-app.tsx:309-314 | Reset gives not exploded, zoom 1, hologram hidden and no captured image, whatever the state before. |
| UnifiedApp.Capture | unified-app.tsx:304-307 | A capture stores an image and shows the hologram, leaving explosion and zoom alone. |
| UnifiedApp.Explode | unified-app.tsx:296-298 | Explode flips the exploded flag and changes nothing else. |
| UnifiedApp.ResetForgets | unified-app.tsx:296-314 | Reset after an explode or a capture gives the same view as reset alone. Exploding twice restores the view. |
| Printer.CappedIncrement | src_pages_index.tsx:47 | Below 100 the value grows by one. Otherwise it is 100. It stays within [0, 100]. |
| Printer.Step | src_pages_index.tsx:44-62 | Start works only when idle, and gives simulating with both progresses 0. The timeout switches to printing. A tick advances only the current phase's progress, and does nothing when idle. No event leads back to idle. |
| Printer.RunStaysInBounds | src_pages_index.tsx:47-49 | Both progresses stay within [0, 100] under any events. |
| Printer.NeverIdleAgain | src_pages_index.tsx:36-62 | Once started, the printer never returns to idle and no later click starts it. |
| Printer.StartsAtMostOnce | src_pages_index.tsx:113 | Production starts at most once per mount. |
| Printer.SimulationTicks | src_pages_index.tsx:46-47 | While simulating, n ticks give a simulation progress of min(n, 100) and leave production at 0. |
| Printer.StateLabel | src_pages_index.tsx:135 | The label has the state name's length and its characters after the first. Its first character is the upper-case form of the name's first letter. |
| Printer.StateLabelsDistinct | src_pages_index.tsx:135 | The three states have three different labels. |
| Printer.MaterialLabels | src_pages_index.tsx:90-93 | One label per material. Each label has the material name's length and its characters after the first, and its first character is the upper-case form of the name's first letter. |
| Dashboard.StartBodyScan | dashboard.tsx:25-28 | Starting a scan sets scanning with progress 0. |
| Dashboard.ScanTick | dashboard.tsx:30-44 | The ticker exists only while scanning. Below 100 it adds 10. At 100 or more, scanning stops and the bar empties. |
| Dashboard.ScanStepsKeepValid | dashboard.tsx:25-44 | Starting and ticking keep the bar a multiple of 10 in [0, 100], and empty when no scan runs. |
| Dashboard.ScanRun | dashboard.tsx:33-40 | A scan shows 10, 20, …, 100, stops and empties on the 11th tick, and then stays stopped. |
| Dashboard.OtherFacing | dashboard.tsx:87 | Switching always changes the facing: "environment" becomes "user", and "user" becomes "environment". |
| Dashboard.OtherFacingInvolution | dashboard.tsx:87 | Switching the facing twice gives back the original facing. |
| Dashboard.CameraLabel | dashboard.tsx:166 | The label is "Back" exactly for the environment camera, and "Front" otherwise. |
| Dashboard.StopCamera | dashboard.tsx:72-84 | Stopping always leaves the camera off with no live stream. |
| Dashboard.StartCamera | dashboard.tsx:50-68 | A granted stream turns the camera on with a live stream of the requested facing and a "Camera activated" toast. A refused one changes nothing and shows the access-error toast. |
| Dashboard.ToggleCamera | dashboard.tsx:46-70 | Toggling an active camera turns it off. Toggling an inactive camera turns it on exactly when the stream is granted, and the live stream then has the selected facing. |
| Dashboard.SwitchCameraAsWritten | dashboard.tsx:86-93 | The switch as written flips the facing and, when the camera is off, does nothing else. |
| Dashboard.SwitchAsWrittenTurnsCameraOff | dashboard.tsx:86-93 | Switching an active camera as written always leaves it off, with two "Camera deactivated" toasts. |
| Dashboard.SwitchAsWrittenExample | dashboard.tsx:86-93 | The back camera on and the front camera available: after the switch as written, the front camera is selected and no camera is on. |
| Dashboard.SwitchCamera | dashboard.tsx:86-93 | The intended switch flips the facing and keeps "on iff a stream with the selected facing is live". |
| Dashboard.SwitchKeepsCameraOn | dashboard.tsx:86-93 | The intended switch keeps an active camera on exactly when the new stream is granted, with the other facing. |
| Dashboard.CameraStep | dashboard.tsx:46-93 | The page's two buttons, as written (the Switch button is disabled at dashboard.tsx:161 while the camera is off). Toggle turns the camera on exactly when it was off and access is granted. Switch does nothing while it is disabled (the camera is off), and otherwise leaves the camera off. Every event keeps the camera consistent. |
| Dashboard.CameraStaysConsistent | dashboard.tsx:46-93 | On the page as written, under any sequence of button presses, the camera is on exactly when a stream with the selected facing is live. |
| Dashboard.IntendedCameraStep | dashboard.tsx:86-93 | With the corrected switch, Toggle behaves as on the page. An enabled Switch selects the other facing and leaves the camera on exactly when access is granted. Every event keeps the camera consistent. |
| Dashboard.IntendedStaysConsistent | dashboard.tsx:46-93 | With the corrected switch, under any sequence of button presses, the camera is on exactly when a stream with the selected facing is live. |
| Dashboard.Captures | dashboard.tsx:111-125 | Periods with the camera off capture nothing. |
| Dashboard.CapturesBoundedByActiveTime | dashboard.tsx:114-117 | At most one capture per 1,800,000 ms of camera time. |
| AiTraining.TrainingTick | ai-training-dashboard.tsx:86-93 | A firing adds 10 to the local count and shows it. The interval stops, and the performance is refetched, exactly when the count reaches 100. |
| AiTraining.StartTraining | ai-training-dashboard.tsx:83-85 | Each click starts a fresh local count at 0 with a running interval. The shown progress keeps its old value until the first tick. |
| AiTraining.TrainingRunTicks | ai-training-dashboard.tsx:83-93 | After n ≥ 1 ticks the page shows min(10·n, 100). The interval stops after exactly ten ticks, with one refetch, at completion. |
| AiTraining.DeployRecord | ai-training-dashboard.tsx:109-112 | A deploy record has the given name and version, status "Deployed" and the current model type. |
| AiTraining.ActionLabel | ai-training-dashboard.tsx:269 | The label is "Update" exactly when the status is "Deployed", and "Deploy" otherwise. |
| AiTraining.HandleModelDeploy | ai-training-dashboard.tsx:105-120 | A failed save changes nothing. A successful one keeps the stored records and appends one: the deploy record with the model's name and version, status "Deployed" and the current type. |
| AiTraining.DeployAddsUpdatableRow | ai-training-dashboard.tsx:268-269 | Clicking a row's button stores a second object for the same name and version, whose button reads "Update". The first object stays. |
| AiTraining.HandleDatasetUpload | ai-training-dashboard.tsx:63-81 | An upload stores the file's name with the current model type. A failed save changes nothing. |
| AiTraining.DatasetNames | ai-training-dashboard.tsx:34-39 | The dataset list shows one name per dataset the query returned, in the order it returned them. |
| AiTraining.UploadShowsName | ai-training-dashboard.tsx:63-81 | After a successful upload, the stored datasets, in the order they were saved, end with the file's name. |
| AiTraining.UploadListed | ai-training-dashboard.tsx:34-39 | With fewer than 100 datasets stored before the upload, every result a query with no sort and no explicit limit may return (Parse's default limit of 100 applies) lists the file's name. |
| AiTraining.DeployListed | ai-training-dashboard.tsx:41-52 | With fewer than 100 models stored before the deploy, every result a query with no sort and no explicit limit may return (Parse's default limit of 100 applies) has a row for the model, with an "Update" button. |

## Left out

- Parse persistence, queries, the axios HTTP calls and Octokit are not executed. They are effects in a plan, or values handed in: the stored objects, the service's reply, the object id a save assigns, and the calls that throw.
- ScheduledCheck.delaySeconds: records the delay the code requests (`{ in: 5 * 60 }` as a third argument to `Parse.Cloud.startJob`, cloud_main.js:116-119), not when the check actually runs. Whether Parse's `startJob` takes and honours such an options argument is outside the source and not modelled. If it ignores it, the re-check starts at once.
- `versionModel`'s body is elided in the source. Only its call and the arguments it receives are modelled.
- Timers are modelled as discrete firings, not as wall-clock scheduling, and React's batching and async ordering are not modelled. Where two timers fire at the same instant (the printer's 10000 ms switch and its 100 ms ticker), nothing is claimed about their order.
- `Math.random()`: vital signs, resource usage and simulation scores are values handed in.
- JavaScript numbers are mathematical reals: no IEEE rounding, no infinities, no negative zero. Parsing numeric strings in `1 - value` is not modelled; a non-empty string converts to NaN.
- `toLowerCase` and `toUpperCase` are ASCII-only: JavaScript's Unicode case mapping is not modelled.
- JavaScript lists integer-like object keys first. The provider select offers no such key, so API keys are listed in insertion order only.
- The display string of a generated health reading (`toISOString()` of its time) is not rebuilt. Readings carry the instant itself, whose rendering is `IsoTime.ToIsoString`.
- The initial health-data fetch in the unified app (unified-app.tsx:277-293), the design-prompt loop (unified-app.tsx:335-367), the zoom slider and all 3D scenes are not modelled. Nor are src_components_ProductionLineViewer.tsx, src_components_OrganViewer.tsx, metaverse-dashboard.tsx, app.tsx and "dashboard (1).tsx": they are rendering, mock data or file reading.
- Camera hardware, `MediaStream`, canvas capture and the image data are not modelled. Only the on/off state, the facing, the live stream's facing and the toasts are.
- Several training runs started together in the AI training dashboard all write the shown progress. Only a single run is modelled.
- `fetchModelPerformance` and `fetchDeployedModels` are modelled only as the list they refresh.
- AiTraining.HandleModelDeploy: describes the stored objects in the order they were saved. The refetch (`find()` with no sort and Parse's default limit of 100, ai-training-dashboard.tsx:41-52) may list them in any order and at most 100 of them. `AiTraining.DeployListed` states what holds for every such listing.
- AiTraining.DeployAddsUpdatableRow: speaks of the stored objects, not of the rows the refetch shows. The table's rows are a listing of at most 100 of them in an order Parse does not fix.
- AiTraining.HandleDatasetUpload: takes the chosen file's name as given, so the path with no file chosen is not modelled. There, `event.target.files[0]` is `undefined` and `file.name` throws before the `try` (ai-training-dashboard.tsx:64-65). Nothing is saved or refetched, so the store stays as after a failed save, and the rejection is unhandled rather than logged. The stored `file` field (the `Parse.File`, ai-training-dashboard.tsx:72) is not part of the record either: a dataset is its name and model type.
- AiTraining.UploadShowsName: speaks of the stored datasets in save order. The refreshed list need not end with the new name. Past 100 stored datasets, it need not contain the name at all. `AiTraining.UploadListed` states what holds for every listing.
- AiTraining.DatasetNames: takes the query's result as given. Which objects Parse returns and in what order is captured only by `AiTraining.QueryListing`.
- JsValues.ToNumber: objects and arrays convert to NaN. JavaScript converts them through ToPrimitive: `1 - [0.25]` is 0.75, `1 - []` is 1 and `1 - {}` is NaN. The ML service's `accuracy` is taken to be a number.
- JsValues.OneMinus: inherits that simplification. `1 - v` for an array-valued record is NaN in the model.
- Parse's order between records with equal `createdAt` is unspecified. The model keeps storage order among equal times, and nothing proved depends on that choice.

## Findings

| source | as written | input that shows it | evidently intended | confidence | as-written member | corrected member |
|---|---|---|---|---|---|---|
| dashboard.tsx:86-93 | `switchCamera` calls `stopCamera()` and then `toggleCamera()`. `toggleCamera` comes from the same render, so it still sees `cameraActive === true` and calls `stopCamera()` again instead of opening a stream. | The back camera is on and the user presses Switch Camera. The result is the front camera selected, the camera off, and two "Camera deactivated" toasts. | Stop the camera, then open a stream with the new facing mode, so the camera stays on with the other facing. | not executed | Dashboard.SwitchAsWrittenTurnsCameraOff | Dashboard.SwitchKeepsCameraOn |
