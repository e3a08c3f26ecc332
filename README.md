# VORMA front end, modelled in Dafny

VORMA is a browser front end for gait-based orthotic recommendation. The
user drops a walking video on an upload card. The home page then runs an
analysis pipeline with these steps:

- it sends the video to a feature-extraction service;
- it shows an "uploading" stage for at least 5 s;
- it sends the extracted gait features to a prediction service;
- it merges both replies into one analysis result.

A result card shows the pipeline's progress and then the result. The result
includes a canvas heatmap of the pressure predicted under the forefoot,
midfoot and rearfoot.

This project models the four pieces of control logic in that front end and
proves properties about them.

- **Pipeline** (`pipeline.dfy`) and **Home** (`page.dfy`) model `handleVideoUpload`.
  - The handler's four state hooks form a snapshot (`Machine`). The snapshot also records the await the handler is parked at (`Phase`) and a trace of what the handler did.
  - `Pipeline.Step` is a reducer over six events: submit, timer elapsed, extraction reply, extraction rejection, prediction reply, prediction rejection.
  - `Home.AnalysisPage` is the page as an object. Each of its methods is one resumption of the handler, updating fields statement by statement, and is proved to produce `Step`'s snapshot.
  - An extraction reply that arrives before the 5 s timer fires is held. The handler inspects it only after the timer.
- **Heatmap** (`heatmap.dfy`) and **HeatmapEffect** (`heatmap_effect.dfy`) model the heatmap.
  - `HeatColor` is the hue map.
  - The canvas effect is a sequence of drawing commands.
  - A small semantics of the 2D context replays commands. It tracks the drawing state, the save/restore stack, the clip, the current path and the marks painted. This shows what each fill and text is painted with.
  - `HeatmapEffect` has a recording context object, and the effect body is proved to issue exactly those commands.
- **ResultCard** (`result_card.dfy`) holds the pure maps from the pipeline state to the card's description, panels, progress width and headline, plus the completed view.
- **UploadCard** (`upload_card.dfy`) models the upload card.
  - A class holds the selected file, the drag highlight and the file input's value, with one method per handler.
  - `formatFileSize` is modelled with an integer unit index.
- **App** (`app.dfy`) links the modules. It shows what the cards display for any snapshot that satisfies the pipeline's invariant.

Two behaviours of the code shape the model:

- **Hue is not clamped.** `getHeatColor` computes `(1 - value) * 240` with no clamp. Loads and hues are exact reals in the model, and in exact arithmetic loads outside [0,1] give hues outside [0,240]. `HeatColor` states exactly that.
- **Completed is final.** The page disables the upload card in every state except idle and error, so no submission follows completed (`Pipeline.CompletedIsFinal`).

## Model

| member | source | states |
|---|---|---|
| Pipeline.StepPreservesValid | app/page.tsx:50-128 | every resumption of the handler keeps the snapshot invariant: the phase matches the state and loading message, a result exists exactly when completed, and the state history follows the pipeline |
| Pipeline.RunPreservesValid | app/page.tsx:50-128 | any admissible sequence of events keeps the invariant |
| Pipeline.RunFromInit | app/page.tsx:45-128 | from the initial hooks (idle, no result, empty messages) every admissible run is valid |
| Pipeline.HistoryOrdering | app/page.tsx:55-125 | in a valid snapshot the states set so far start with uploading and end with the current state. Extracting only follows uploading, predicting only follows extracting, completed only follows predicting and is never left, and error only interrupts extracting or predicting |
| Pipeline.SubmitStartsRequestThenTimer | app/page.tsx:55-72 | submit sets uploading and "Uploading video...", and starts the extraction request before the 5000 ms timer. Result and error message are untouched |
| Pipeline.ReplyHeldUntilTimer | app/page.tsx:62-79 | before the timer fires, an extraction reply or rejection changes nothing visible; it is only held |
| Pipeline.ReplyOrderIrrelevant | app/page.tsx:62-79 | the extraction settling before or after the timer leads to the same snapshot |
| Pipeline.ExtractingOnlyOnTimer | app/page.tsx:72-76 | extracting is set only by the timer event, from uploading, as the first thing that event does |
| Pipeline.ExtractionFailure | app/page.tsx:81-83 | a non-ok extraction reply gives error with "Feature extraction failed: " + statusText. Only the error state is added to the trace, and result and loading message are unchanged |
| Pipeline.EarlyExtractionFailure | app/page.tsx:72-83 | a non-ok reply before the timer is reported after extracting has been set: the trace gains extracting, then error |
| Pipeline.GoodExtractionStartsPrediction | app/page.tsx:89-100 | an ok extraction reply enters predicting with its stage message and sends exactly one prediction request whose body is the reply's gait features |
| Pipeline.HeldGoodExtractionStartsPrediction | app/page.tsx:71-100 | an ok reply held until the timer fires shows extracting, then enters predicting and sends the held reply's gait features |
| Pipeline.PredictingOnlyAfterGoodExtraction | app/page.tsx:81-100 | predicting is entered only from an ok extraction reply, and the prediction request body is exactly that reply's gait features |
| Pipeline.PredictionFailure | app/page.tsx:104-106 | a non-ok prediction reply gives error with "Prediction failed: " + statusText; result and loading message are unchanged |
| Pipeline.ThrownValueMessage | app/page.tsx:123-127 | a thrown Error shows its message, and any other thrown value shows "An unknown error occurred"; result and loading message are unchanged |
| Pipeline.SuccessMergesReplies | app/page.tsx:112-122 | the result takes features, file name and frame count from the extraction and loads and prescription from the prediction. It is stored before completed is set, and the loading message becomes "" |
| Pipeline.SubmitOnlyFromIdleOrError | app/page.tsx:178 | the upload card is disabled exactly in uploading, extracting, predicting and completed, and a settled page in idle or error accepts a submission |
| Pipeline.CompletedIsFinal | app/page.tsx:178 | a completed page accepts no event |
| Home.AnalysisPage.constructor | app/page.tsx:45-48 | the hooks start idle, with no result and empty messages |
| Home.AnalysisPage.SetAnalysisState | app/page.tsx:45 | the setter changes only the state and records it in the trace |
| Home.AnalysisPage.Catch | app/page.tsx:123-127 | the catch block yields the snapshot of Pipeline.Fail: error and the message, nothing else |
| Home.AnalysisPage.InspectExtraction | app/page.tsx:79-100 | the code after `await extractPromise` yields the snapshot of Pipeline.Inspect |
| Home.AnalysisPage.OnSubmit | app/page.tsx:50-72 | the handler up to the 5 s wait yields the snapshot of Pipeline.Step for Submit |
| Home.AnalysisPage.OnTimerElapsed | app/page.tsx:72-100 | after the wait, extracting is shown and any held extraction outcome is inspected, as Step prescribes |
| Home.AnalysisPage.OnExtractionResponse | app/page.tsx:62-100 | an extraction reply is held before the timer and inspected after it, as Step prescribes |
| Home.AnalysisPage.OnExtractionThrew | app/page.tsx:62-79 | an extraction rejection is held before the timer and caught after it, as Step prescribes |
| Home.AnalysisPage.OnPredictionResponse | app/page.tsx:92-122 | a prediction reply fails or completes with the merged result, as Step prescribes |
| Home.AnalysisPage.OnPredictionThrew | app/page.tsx:92-127 | a prediction rejection is caught, as Step prescribes |
| Heatmap.HeatColor | app/components/FootHeatmap.tsx:19-21 | saturation 100, lightness 50, alpha passed through. Hue is in [0,240] exactly when the load is in [0,1], above 240 below 0, below 0 above 1, and hue/240 + load = 1 |
| Heatmap.HueStrictlyDecreasing | app/components/FootHeatmap.tsx:20 | a larger load gives a strictly smaller hue |
| Heatmap.Legend | app/components/FootHeatmap.tsx:178-186 | the legend swatches have hues 240, 120, 0 at alpha 1 |
| Heatmap.ZoneGradient | app/components/FootHeatmap.tsx:70-80 | both stops use the zone's load hue, with alpha 0.9 at offset 0 and 0.3 at offset 1; both circles are centred at (0.5w, textY) |
| Heatmap.OutlineReplay | app/components/FootHeatmap.tsx:35-64 | the canvas is cleared, then the outline is filled and stroked in "#1a1f2e", "#22d3ee" and width 2 |
| Heatmap.RestoreReplay | app/components/FootHeatmap.tsx:86 | restore pops the last saved drawing state |
| Heatmap.ClippedFillReplay | app/components/FootHeatmap.tsx:82-86 | save/clip/fill/restore paints one mark, the shape, with the given paint inside the clip. Afterwards the drawing state and save stack are as before |
| Heatmap.PercentReplay | app/components/FootHeatmap.tsx:89-93 | the percentage is painted in white, bold 14px, centred, with a middle baseline |
| Heatmap.ZoneReplay | app/components/FootHeatmap.tsx:69-94 | drawZone paints the gradient fill inside the clip, then the percentage outside it at (0.5w, textY). The save stack is balanced |
| Heatmap.DrawZoneReplay | app/components/FootHeatmap.tsx:96-150 | each zone call paints its shape and load at its anchor |
| Heatmap.ZonesReplay | app/components/FootHeatmap.tsx:96-150 | the three zones are painted forefoot, midfoot, rearfoot, six marks in all |
| Heatmap.LabelReplay | app/components/FootHeatmap.tsx:154-159 | three captions are painted in cyan, 12px, left-aligned |
| Heatmap.HeatmapReplay | app/components/FootHeatmap.tsx:35-159 | the effect adds the twelve marks of HeatmapMarks after those already there, and leaves the save stack as found |
| Heatmap.HeatmapMarksInOrder | app/components/FootHeatmap.tsx:35-159 | the order is clear, outline fill, outline stroke, then fill and percentage for each zone in order, then the three captions. Each zone fill is clipped and uses its gradient, and each caption shares its zone's y at x = 0.85w. Exactly the zone fills are painted inside the clip |
| Heatmap.HeatmapPainting | app/components/FootHeatmap.tsx:25-159 | replaying the effect keeps earlier marks, adds exactly HeatmapMarks, and balances the save stack |
| Heatmap.AnchorsTopToBottom | app/components/FootHeatmap.tsx:112-149 | the anchors 0.15h < 0.50h < 0.85h run from toes to heel |
| HeatmapEffect.DrawOutline | app/components/FootHeatmap.tsx:35-64 | issues exactly OutlineCommands |
| HeatmapEffect.TraceShape | app/components/FootHeatmap.tsx:98-110 | the zone callback issues beginPath, the shape, fill |
| HeatmapEffect.DrawZone | app/components/FootHeatmap.tsx:69-94 | issues exactly ZoneCommands for its shape, load and textY |
| HeatmapEffect.DrawZones | app/components/FootHeatmap.tsx:96-150 | issues the three zones in order |
| HeatmapEffect.DrawLabels | app/components/FootHeatmap.tsx:154-159 | issues the label style and the three captions |
| HeatmapEffect.Draw | app/components/FootHeatmap.tsx:35-159 | issues exactly HeatmapCommands(width, height, loads) |
| HeatmapEffect.DrawHeatmap | app/components/FootHeatmap.tsx:25-161 | without a canvas or a context it draws nothing. Otherwise the context receives exactly the commands determined by the canvas size and the loads |
| ResultCard.Description | app/components/AnalysisResultCard.tsx:70-75 | every state has a non-empty description |
| ResultCard.DescriptionRoundTrip | app/components/AnalysisResultCard.tsx:70-75 | the description names its own state, from "Awaiting video upload" to "Analysis failed" |
| ResultCard.DescriptionInjective | app/components/AnalysisResultCard.tsx:70-75 | distinct states have distinct descriptions |
| ResultCard.Headline | app/components/AnalysisResultCard.tsx:101 | the headline is never empty: it is the loading message when that is non-empty, else "Processing..." |
| ResultCard.StageHint | app/components/AnalysisResultCard.tsx:104-106 | a stage hint is shown exactly in uploading, extracting and predicting |
| ResultCard.ProgressPercent | app/components/AnalysisResultCard.tsx:113-122 | the width is in (0,100], and below 100 exactly in the loading states |
| ResultCard.ProgressMonotone | app/components/AnalysisResultCard.tsx:113-122 | the width is 25 times the pipeline position, so it grows strictly along uploading, extracting, predicting |
| ResultCard.PrescriptionRows | app/components/AnalysisResultCard.tsx:184-226 | six rows with distinct names in the fixed order rearfoot medial post, rearfoot lateral post, forefoot lateral wedge, forefoot medial wedge, arch support, heel cushion; with the round trip each label sits next to its own field |
| ResultCard.PrescriptionRoundTrip | app/components/AnalysisResultCard.tsx:184-226 | the table's values, read in row order, give back the prescription |
| ResultCard.Metrics | app/components/AnalysisResultCard.tsx:247-270 | four metrics: cadence, stance ratio times 100 in %, step height, ankle angle range |
| ResultCard.ViewOf | app/components/AnalysisResultCard.tsx:144-157 | the heatmap gets the result's predicted loads and the badge its frame count; the table holds the whole prescription; the metrics are the four key gait metrics of the result |
| ResultCard.Panels | app/components/AnalysisResultCard.tsx:81-144 | at most one panel. Idle panel iff idle; loading panel iff uploading, extracting or predicting, showing the headline, the current stage's hint and its 25/50/75% width; error panel iff error, showing errorMessage; result panel iff completed with a result, showing exactly `ViewOf` of that result. Nothing is shown for completed without a result |
| UploadCard.DropSelection | app/components/VideoUploadCard.tsx:31-44 | a drop changes the selection only when enabled, and only to the first file, and only if it is a video |
| UploadCard.ChangeSelection | app/components/VideoUploadCard.tsx:46-50 | the input change selects the first file with no MIME check; an empty or missing list keeps the selection |
| UploadCard.DropIsStricterThanChange | app/components/VideoUploadCard.tsx:31-50 | any selection a drop makes, an input change with the same files makes too, and it is a video |
| UploadCard.DropIdempotent | app/components/VideoUploadCard.tsx:31-44 | dropping the same files twice selects what dropping them once does |
| UploadCard.VideoUploadCard.constructor | app/components/VideoUploadCard.tsx:15-17 | no file, not dragging, input not mounted |
| UploadCard.VideoUploadCard.DragOver | app/components/VideoUploadCard.tsx:19-24 | isDragging becomes true only when enabled, and nothing else changes |
| UploadCard.VideoUploadCard.DragLeave | app/components/VideoUploadCard.tsx:26-29 | isDragging becomes false, and nothing else changes |
| UploadCard.VideoUploadCard.Drop | app/components/VideoUploadCard.tsx:31-44 | isDragging becomes false and the selection becomes DropSelection |
| UploadCard.VideoUploadCard.FileChange | app/components/VideoUploadCard.tsx:46-50 | the selection becomes ChangeSelection, and nothing else changes |
| UploadCard.VideoUploadCard.UploadClick | app/components/VideoUploadCard.tsx:52-56 | onUpload receives the selected file exactly once if there is one, and is not called otherwise |
| UploadCard.VideoUploadCard.ZoneClick | app/components/VideoUploadCard.tsx:95 | clicking the drop zone opens the picker only when enabled and the input is mounted |
| UploadCard.VideoUploadCard.ClearFile | app/components/VideoUploadCard.tsx:58-63 | the selection becomes null and a mounted input's value becomes "" |
| UploadCard.UnitIndex | app/components/VideoUploadCard.tsx:69 | 1024^i <= bytes < 1024^(i+1) |
| UploadCard.UnitIndexUnique | app/components/VideoUploadCard.tsx:69 | UnitIndex is the only index with that property, so it is floor(log base 1024 of bytes) |
| UploadCard.UnitIndexBelowFour | app/components/VideoUploadCard.tsx:68-69 | the index names a unit exactly below 1024^4 bytes |
| UploadCard.Unit | app/components/VideoUploadCard.tsx:68 | indices 0..3 name Bytes, KB, MB, GB, and any other index is undefined |
| UploadCard.FormatFileSize | app/components/VideoUploadCard.tsx:65-71 | 0 is "0 Bytes"; any other size is shown in the unit at floor(log base 1024) as bytes / 1024^i, an amount in [1, 1024); the unit is undefined exactly from 1024^4 bytes on |
| UploadCard.FormatFileSizeUnit | app/components/VideoUploadCard.tsx:65-71 | a size in the range [1024^k, 1024^(k+1)) is shown in unit k as bytes / 1024^k |
| App.CompletedPageShowsResult | app/components/AnalysisResultCard.tsx:144-157 | a valid completed page always has its result, and the card shows the result panel with that result's loads |
| App.LoadingHeadlineIsStageMessage | app/components/AnalysisResultCard.tsx:101 | while loading, the message is one of the three stage messages, so "Processing..." never shows |
| App.ProgressNeverRegresses | app/components/AnalysisResultCard.tsx:113-122 | no handler step moves the progress bar backwards |
| App.UploadOnlyWhenIdleOrFailed | app/components/VideoUploadCard.tsx:176 | the upload button is usable only with a file selected, in idle or error |
| App.ExtractionFailureShown | app/components/AnalysisResultCard.tsx:129-136 | a non-ok extraction reply leaves the card showing exactly the error panel with "Feature extraction failed: " + statusText |

## Left out

- Heatmap.HeatColor: loads and hues are exact reals; the double-precision rounding of `(1 - value) * 240` is not modelled. With doubles, a load of -1e-17 rounds `1 - value` to 1.0 and gives hue exactly 240, and loads 1e-17 and 2e-17 both give hue 240, so the [0,240] band and the strict decrease (`Heatmap.HueStrictlyDecreasing`) hold for the exact-arithmetic formula, not for every double.
- `fetch`, `FormData`, `JSON.stringify` and `.json()` are not modelled. Service replies are events carrying `ok`, `statusText` and an already decoded body, so a body that fails to parse (which the catch block would report) is not modelled.
- The real `setTimeout` and the network's timing are not modelled. The timer and the replies are events that the environment delivers in any order the awaits allow.
- Double submission is not checked by the handler. The page's `isDisabled` guard is the precondition of the submit event.
- React rendering, hook batching, JSX, styling and icons are not modelled, nor is the effect re-running when `loads` changes. The effect is a method called with the loads.
- `console.log` and `console.error` calls are not modelled.
- `app/layout.tsx` is static metadata and markup and is not part of this model.
- Path2D geometry, pixels, gradient rasterisation and fonts are not modelled. The foot outline is one symbolic path; `clip` is a flag meaning "inside the outline".
- Number-to-text formatting is not modelled, neither the heatmap's `toFixed(1)` percentages nor the result card's `toFixed` values. Texts carry the real value.
- The `hsla(...)` string is not modelled; colours are the record of their four numbers.
- UploadCard.FormatFileSize: not modelled are the rounding to two decimals, the string concatenation, and floating-point `Math.log` near exact powers of 1024. The amount is the exact rational bytes / 1024^i.
- UploadCard.VideoUploadCard.FileChange: the browser's own update of the input's value on a change is not modelled; only the handler's effect is.
