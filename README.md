# Accident detection dashboard: a verified model of its core rules

The system is a Flask backend and a Next.js dashboard. The backend runs
YOLOv8 over an uploaded dashcam video and sums up what it found. The
dashboard uploads the video, shows the summary and draws the boxes over
the playing video. This project models the parts of both that hold rules,
and proves those rules.

- **`/upload-video`** (module `App`, specified in `Aggregation`):
  - The request is checked in order: the `video` field must be present, its filename must not be empty, and the capture must open.
  - The frame rate falls back to 25 when it is missing or at most 1.
  - At most 120 frames are read. Each detector box is stamped with its frame index and its time `frame / fps` rounded to 3 places. The accident times kept for the summary are the exact quotients, rounded only when reported.
  - Boxes of classes 0-3 count as accident related.
  - The reply gives:
    - the accident flag;
    - the highest accident confidence;
    - the earliest accident time;
    - a severity band (High at 0.85 or more, Medium at 0.6 or more, Low otherwise);
    - the accident type;
    - the sorted names of the object classes seen;
    - the sorted, de-duplicated accident times, as timeline markers.
  - `App.UploadVideo` is the handler's loop, written imperatively. It is proved to return `Summarize(Scan(...))`, where `Scan` is the loop as a fold. The `ScanBoxes*` lemmas tie the reply's boxes back to the input frames, and the `Report*` lemmas do the same for the accident flag, confidence, severity, accident time, markers and objects. The video duration comes from the capture's frame count and frame rate, not from the frames.
- **`/stream-detect`**: one decoded frame, every box kept, and the same accident rule without timestamps.
- **The detection player** (module `DetectionPlayer`):
  - the visibility window of 0.25 s around the playback time;
  - the canvas's display list, with its label-chip and label-text clamps;
  - the canvas size fallback chain;
  - the listeners the effect adds and its cleanup removes;
  - the timeline-marker positions.
- **The page** (module `Page`): the state hooks of `Home` form a class, and its handlers are proved against pure transition functions. Those functions cover the upload-start reset and the upload-complete defaults. The alert's dismiss action is stated directly on the state (only the accident flag changes), and the downloadable report is a function of the state.
- **The upload card** (module `UploadCard`): file validation, and the upload handler driven by an abstract request outcome.

Rounding follows Python's `round` on exact decimals: round half to even at 3 or 4 decimal places. It is proved monotone, which is what keeps "the reported confidence is the largest" true after rounding.

`handleUploadComplete` falls back with `||` for most fields and with `??` for the accident time. For well-typed JSON fields a falsy value under `||` is already the default it falls back to (`0`, `""`), and an array is never falsy. So both fallbacks come out as "absent means default", and an accident time of 0 is kept.

## Model

| member | source | states |
|---|---|---|
| Aggregation.EffectiveFps | backend/app.py:75-78 | the frame rate used is always above 1: the reported one when above 1, else 25 |
| Aggregation.TruncateToInt | backend/app.py:80 | `int()` truncates toward zero: within 1 below a non-negative value, within 1 above a negative one |
| Aggregation.VideoDuration | backend/app.py:81 | the duration is never negative; it is 0 exactly when the frame count is not positive, and otherwise duration × fps = frame count |
| Aggregation.FramesRead | backend/app.py:88-96 | the loop processes every frame the capture delivers, but at most 120 |
| Aggregation.IsAccidentClass | backend/app.py:128 | `cls_id in (0, 1, 2, 3)`: the accident-related classes; ScanAccidents, ReportAccident and StreamFacts state the reply in its terms |
| Aggregation.Timestamp | backend/app.py:112 | `frame_idx / fps`, the exact time of a frame; Stamp rounds it for the box, and ReportMarkers and ReportAccidentTime report it rounded |
| Aggregation.PeakConfidence | backend/app.py:142 | the peak is one of the accident confidences and no smaller than any of them, or 0 when there are none |
| Aggregation.Severity | backend/app.py:146-154 | "None" iff no accident; otherwise "High" iff confidence ≥ 0.85, "Medium" iff 0.6 ≤ confidence < 0.85, "Low" iff confidence < 0.6 |
| Aggregation.SeverityMonotone | backend/app.py:146-154 | for an accident, a higher confidence never gives a lower band |
| Aggregation.RoundEach | backend/app.py:167 | each timestamp is rounded to 3 places, in place, with none dropped |
| Aggregation.LexLess | backend/app.py:165 | Python's `<` on `str`, which `sorted` uses: code point by code point, a proper prefix first; LexLessIrreflexive and LabelOrderIsClassNames state its properties used here |
| Aggregation.LexLessIrreflexive | backend/app.py:165 | Python's string order is strict: no name sorts before itself |
| Aggregation.LexIncreasingDistinct | backend/app.py:165 | a list sorted strictly by string order repeats no name |
| Aggregation.KeepListed | backend/app.py:165 | filtering a list sorted by string order keeps it sorted, and keeps exactly the listed names that were seen |
| Aggregation.LabelOrderIsClassNames | backend/app.py:36-43 | the class-name table's six labels, listed in Python's string order |
| Aggregation.SortedLabels | backend/app.py:132-165 | `sorted(objects_involved)` is strictly increasing and holds exactly the seen labels that are class names |
| Aggregation.Summarize | backend/app.py:141-168 | accident iff some confidence was recorded iff the severity is not "None"; the accident time is null iff no time was recorded. What each field holds for a run of frames is stated by ReportAccident, ReportConfidence, ReportSeverity, ReportMarkers, ReportAccidentTime and ReportObjects |
| Aggregation.Stamp | backend/app.py:107-123 | one box's record: its frame and coordinates and confidence and class, and its time rounded to 3 places; characterised through AddFrameBoxes and ScanBoxesOrigin |
| Aggregation.AddBox | backend/app.py:107-134 | the inner loop's body for one box; what it appends to each accumulator is stated by AddFrameBoxes, AddFrameAccidents and AddFrameLabels |
| Aggregation.AddFrame | backend/app.py:103-134 | one frame's inner loop over its boxes; characterised by AddFrameBoxes, AddFrameAccidents, AddFrameLabels and AddFrameConfidences |
| Aggregation.Scan | backend/app.py:93-136 | the outer loop over the frames read; characterised by ScanBoxesOrigin, ScanBoxesOrdered, ScanBoxesComplete, ScanAccidents and ScanLabels, and equal to the loop of App.UploadVideo |
| Aggregation.AddFrameBoxes | backend/app.py:103-124 | one frame's inner loop appends one stamped box per detector box, in order, stamped with that frame and its time |
| Aggregation.AddFrameAccidents | backend/app.py:126-130 | the inner loop records a confidence and a time exactly for the boxes of classes 0-3 |
| Aggregation.AddFrameLabels | backend/app.py:132-134 | the inner loop adds exactly the display names of the classes that have one |
| Aggregation.ScanBoxesOrigin | backend/app.py:93-136 | every emitted box is a detector box of a processed frame, stamped with that frame and the rounded `frame/fps` |
| Aggregation.ScanBoxesOrdered | backend/app.py:93-136 | every emitted box has frame < 120, and frames never decrease along the list |
| Aggregation.ScanBoxesComplete | backend/app.py:93-136 | every detector box of every processed frame is emitted |
| Aggregation.ScanAccidents | backend/app.py:112-130 | confidences and times are recorded in pairs, exactly for the accident-class boxes of the processed frames |
| Aggregation.ScanLabels | backend/app.py:132-134 | the label set is exactly the display names of the classes seen in the processed frames |
| Aggregation.ReportOf | backend/app.py:93-168 | the `/upload-video` reply for the frames read: the summary of the fold over them; App.UploadVideo returns it, and the Report lemmas below state each of its fields |
| Aggregation.ReportAccident | backend/app.py:141-156 | accident iff some processed box has a class in 0-3; the type is "Vehicle Collision" iff accident, else "None"; severity is "None" iff no accident |
| Aggregation.ReportConfidence | backend/app.py:142-160 | the confidence is 0 without an accident; otherwise it is the rounded confidence of an accident box, and at least the rounded confidence of every accident box |
| Aggregation.ReportSeverity | backend/app.py:146-154 | "High" iff some accident box reaches 0.85; "Medium" iff some reaches 0.6 and none 0.85; "Low" iff there is an accident and none reaches 0.6 |
| Aggregation.ReportMarkers | backend/app.py:167 | markers are strictly increasing and are exactly the rounded times of frames with an accident box |
| Aggregation.ReportAccidentTime | backend/app.py:144-167 | the accident time is null iff no accident, and is otherwise the first marker and the least of the markers |
| Aggregation.ReportObjects | backend/app.py:132-165 | objects are strictly increasing in string order, repeat no name, and are exactly the labels seen |
| Aggregation.AccidentConfidences | backend/app.py:224-225 | the stream's recorded confidences are exactly those of its accident-class boxes |
| Aggregation.StreamSummary | backend/app.py:227-236 | the `/stream-detect` reply built from one frame's boxes; StreamFacts states that it keeps every box, flags an accident iff some box has a class in 0-3, and gives 0 without an accident and otherwise the rounded confidence of an accident box that no other accident box's rounded confidence exceeds; StreamAgreesWithUpload states that it agrees with `/upload-video` on one frame |
| Aggregation.AddFrameConfidences | backend/app.py:128-129 | a frame's inner loop records its accident confidences in the same order as the stream handler does |
| Aggregation.StreamAgreesWithUpload | backend/app.py:224-234 | on one frame, the stream reply's accident flag and confidence equal those of the upload reply for a video of that frame alone |
| Aggregation.StreamFacts | backend/app.py:213-236 | the stream reply keeps every box; accident iff some box has a class in 0-3; the confidence is 0 without an accident, and otherwise the rounded confidence of some accident box and at least every accident box's rounded confidence |
| App.UploadVideo | backend/app.py:55-169 | the three 400 errors in the source's order; otherwise the loop's reply equals the summary of the fold over the frames read, with the effective fps and duration |
| App.StreamDetect | backend/app.py:180-236 | the `frame` file is used when present, else the body; empty data and an undecodable image give their 400 errors; otherwise the loop's reply is the stream summary |
| Rounding.RoundHalfEven | backend/app.py:160 | the rounded integer is within ½ of the value, and ties go to the even integer |
| Rounding.RoundHalfEvenUnique | backend/app.py:160 | the rounding is the only integer with those properties |
| Rounding.RoundHalfEvenMonotone | backend/app.py:160 | rounding never reverses order |
| Rounding.RoundTo | backend/app.py:122-167 | Python's `round(x, k)` on exact values; RoundToNearest states it is the multiple of 10^-k nearest x with ties to even, RoundToMonotone that it keeps order, RoundToZero that 0 stays 0 |
| Rounding.RoundToNearest | backend/app.py:122 | `round(x, k)` is a multiple of 10^-k, within half a unit of x |
| Rounding.RoundToMonotone | backend/app.py:160-167 | `round(x, k)` never reverses order |
| Rounding.RoundToZero | backend/app.py:160 | the confidence 0 rounds to 0 |
| Order.Insert | backend/app.py:167 | inserting into a strictly increasing list keeps it strictly increasing, and adds exactly the new value |
| Order.SortedDistinct | backend/app.py:167 | `sorted(set(xs))` is strictly increasing and has exactly the values of xs |
| Order.StrictlyIncreasingUnique | backend/app.py:167 | two strictly increasing lists with the same values are equal, so the sorted de-duplicated list is unique |
| Order.Max | backend/app.py:142 | `max` is an element no smaller than any other |
| Order.Min | backend/app.py:144 | `min` is an element no larger than any other |
| Order.HeadIsMin | backend/app.py:167 | the first element of a strictly increasing list is its smallest |
| DetectionPlayer.IsVisible | frontend/components/DetectionPlayer.jsx:29-32 | the `filter` predicate; VisibilityWindow states it: an untimed box always, a timed one iff strictly within 0.25 of the playback time |
| DetectionPlayer.VisibilityWindow | frontend/components/DetectionPlayer.jsx:29-32 | an untimed box is always visible; a timed one iff strictly within 0.25 s of the playback time, so a distance of exactly 0.25 is hidden |
| DetectionPlayer.VisibleBoxes | frontend/components/DetectionPlayer.jsx:29-32 | the drawn boxes are a subsequence of the detections, holding each visible box as often as it occurs and no other |
| DetectionPlayer.UntimedBoxesAlwaysDrawn | frontend/components/DetectionPlayer.jsx:30 | every box without a timestamp is drawn at any playback time |
| DetectionPlayer.ChipTop | frontend/components/DetectionPlayer.jsx:47-50 | the chip's top is never negative: it is right above the box, or 0 |
| DetectionPlayer.TextBaseline | frontend/components/DetectionPlayer.jsx:54 | the label baseline is 6 above the box, but never less than 10 |
| DetectionPlayer.BoxPaints | frontend/components/DetectionPlayer.jsx:34-55 | the three commands for one box: its outline, its label chip and its label text; PaintsAt places them in the display list and LabelsStayOnCanvas bounds the chip and text positions |
| DetectionPlayer.Paints | frontend/components/DetectionPlayer.jsx:34-55 | the display list has exactly three commands per box; PaintsAt states that box k's are the k-th group of three |
| DetectionPlayer.PaintsAt | frontend/components/DetectionPlayer.jsx:34-55 | the display list has three commands per drawn box, box k's at positions 3k to 3k+2, in list order |
| DetectionPlayer.LabelsStayOnCanvas | frontend/components/DetectionPlayer.jsx:47-54 | no chip in the display list starts above the canvas, and no label text sits above baseline 10 |
| DetectionPlayer.CanvasDimension | frontend/components/DetectionPlayer.jsx:20-21 | the displayed size when nonzero, else the intrinsic size when nonzero, else the fallback |
| DetectionPlayer.CanvasNeverEmpty | frontend/components/DetectionPlayer.jsx:20-21 | the canvas is never sized 0 in either dimension |
| DetectionPlayer.Overlay.DrawBoxes | frontend/components/DetectionPlayer.jsx:25-56 | without a context nothing changes; otherwise the canvas is cleared and then holds exactly the visible boxes' commands |
| DetectionPlayer.Overlay.ResizeCanvas | frontend/components/DetectionPlayer.jsx:19-23 | width and height follow the fallback chains, and the canvas holds exactly the boxes visible at the video's current time |
| DetectionPlayer.NothingToDraw | frontend/components/DetectionPlayer.jsx:27-34 | an empty detection list leaves the cleared canvas empty |
| DetectionPlayer.EffectListeners | frontend/components/DetectionPlayer.jsx:64-66 | one effect run installs three distinct listeners, all its own |
| DetectionPlayer.EventListeners.Add | frontend/components/DetectionPlayer.jsx:64-66 | `addEventListener`: the listener is installed; adding one already there changes nothing |
| DetectionPlayer.EventListeners.Remove | frontend/components/DetectionPlayer.jsx:69-71 | `removeEventListener`: exactly that listener is gone, the others stay |
| DetectionPlayer.EventListeners.MountEffect | frontend/components/DetectionPlayer.jsx:12-66 | without a video or canvas nothing is installed, no cleanup is returned and the canvas keeps its size and drawing; otherwise the canvas is sized by the fallback chains and drawn with the boxes visible at the video's current time (left blank without a context), and exactly the run's three listeners are added |
| DetectionPlayer.EventListeners.CleanupEffect | frontend/components/DetectionPlayer.jsx:68-72 | the cleanup removes exactly the run's three listeners |
| DetectionPlayer.RunsAreDisjoint | frontend/components/DetectionPlayer.jsx:64-72 | two runs of the effect share no listener, so one run's cleanup leaves every other run's listeners |
| DetectionPlayer.CleanupUndoesMount | frontend/components/DetectionPlayer.jsx:64-72 | the listeners after cleanup are those before mounting, and none of the run's remains |
| DetectionPlayer.MarkerLeft | frontend/components/DetectionPlayer.jsx:104-105 | the marker offset lies in [0, 100]: 0 for times ≤ 0, 100 for times ≥ the duration, and proportional in between |
| DetectionPlayer.MarkerLeftMonotone | frontend/components/DetectionPlayer.jsx:104-105 | a later time is never placed left of an earlier one |
| DetectionPlayer.MarkerStrip | frontend/components/DetectionPlayer.jsx:75-113 | the strip is rendered iff the duration is positive and there are markers, with one offset per marker in order |
| DetectionPlayer.MarkerStripOrdered | frontend/components/DetectionPlayer.jsx:100-113 | strictly increasing markers, as the backend sends them, are drawn left to right |
| Page.UploadStarted | frontend/pages/index.jsx:46-57 | the start sets loading and resets every result field to its empty default, keeping the video |
| Page.UploadCompleted | frontend/pages/index.jsx:29-44 | completion always ends loading; the video URL changes only when a file is given; each result field takes the result's value when present and its default (empty list, false, 0, empty string) when missing, the accident time staying null when missing; a missing result leaves every field at its default |
| Page.CompletionOverwritesResult | frontend/pages/index.jsx:29-57 | start followed by completion depends on the earlier state only through the video URL |
| Page.ZeroAccidentTimeKept | frontend/pages/index.jsx:37 | an accident time of 0 is kept, not replaced by null |
| Page.DownloadReport | frontend/pages/index.jsx:174-188 | the report exists iff there are detections; it always claims an accident, and copies the page's other fields |
| Page.Home.constructor | frontend/pages/index.jsx:12-22 | the hooks start with no video, an empty result and loading off |
| Page.Home.HandleUploadStart | frontend/pages/index.jsx:46-57 | the state moves by `UploadStarted` |
| Page.Home.HandleUploadComplete | frontend/pages/index.jsx:29-44 | the state moves by `UploadCompleted`, with the file's object URL when a file is given |
| Page.Home.CloseAlert | frontend/pages/index.jsx:232 | dismissing the alert clears the accident flag and changes no other field |
| Page.ResultOf | backend/app.py:158-168 | the page receives every backend box with its confidence and its timestamp set |
| Page.PageShowsBackendReply | frontend/pages/index.jsx:29-44 | after a backend reply, the page shows an accident iff it shows an accident time iff the severity is not "None"; its markers are strictly increasing, and the accident time is the first and smallest marker |
| UploadCard.IsVideoFile | frontend/components/UploadCard.jsx:20 | a file is accepted iff its MIME type starts with "video/"; HandleFileChange keeps only such files, as the card's Valid invariant states |
| UploadCard.UploadError | frontend/components/UploadCard.jsx:48-57 | an error is shown iff the request failed: the server's `error` when non-empty, else "Failed to process video."; a thrown message, else "Unexpected error while uploading." |
| UploadCard.DeliveredResult | frontend/components/UploadCard.jsx:53-62 | the page gets the response body on success, and the failure object (no accident, confidence 0, no boxes) otherwise |
| UploadCard.FailedUploadLeavesPageEmpty | frontend/components/UploadCard.jsx:55-62 | a failed upload leaves the page showing the new video, an empty non-accident result, and not loading |
| UploadCard.UploadCard.constructor | frontend/components/UploadCard.jsx:10-11 | the card starts with no file and no error, attached to the given page |
| UploadCard.UploadCard.HandleFileChange | frontend/components/UploadCard.jsx:13-28 | no file: the file is cleared and the error kept; a non-video type: the file is cleared and the invalid-file error set; a video: it is stored and the error cleared |
| UploadCard.UploadCard.StartUpload | frontend/components/UploadCard.jsx:30-37 | up to the request: without a file, the "choose a file" error and the page untouched; with one, the error cleared and the page started; the file is captured |
| UploadCard.UploadCard.FinishUpload | frontend/components/UploadCard.jsx:39-63 | after the request: the card's file untouched and still a video file; a failure's error shown and a success leaving the error as it is; the page completed with the captured file and the delivered result |
| UploadCard.UploadCard.HandleUpload | frontend/components/UploadCard.jsx:30-64 | for a run with no other handler of the card in between: without a file, the "choose a file" error and the page untouched; with one, the page is started, then completed with the delivered result, and the card shows the outcome's error |
| UploadCard.UploadCard.HandleUploadWithFileChange | frontend/components/UploadCard.jsx:13-63 | without a file at the click: the "choose a file" error, no file and the page untouched; with one: a file picked while the request is pending replaces or clears the card's file, yet the page completes with the file captured at the click; a failure shows its error; after a success the error is the invalid-file one for a non-video pick and empty otherwise |

## Left out

- YOLO inference, OpenCV decoding and capture, and the BGR-to-RGB conversion are library calls. They become inputs:
  - the frames the capture delivers, as per-frame box lists;
  - whether the capture opened;
  - the capture's reported frame rate and frame count;
  - the decoded frame's boxes, or None when decoding fails.
- The per-image list of results that YOLO returns, and results with `boxes` of None, are flattened into one box list per frame.
- The temporary file, Flask routing, CORS, `jsonify`, HTTP status codes, `/health` and `app.run` are I/O and framework glue.
- IEEE floating point is replaced by exact reals, and Python's `round` by round-half-even on exact decimals. A NaN or infinite frame rate or frame count is not modelled. Neither is the binary representation that makes some decimal ties round differently in Python.
- Aggregation.SortedLabels: Python sorts any label set. The model orders the labels through the fixed class-name table, which is the only source of labels.
- JavaScript's `toFixed` and the label text, the canvas styling, and the chip width from `measureText` depend on number formatting and font metrics. The chip carries no width, and the label text carries the confidence it shows.
- DetectionPlayer.Overlay.ResizeCanvas: `video.currentTime || 0` is modelled as the current time itself, since the two differ only for NaN.
- DetectionPlayer.EventListeners.MountEffect: React's effect scheduling (when the effect runs and when its cleanup runs, on a change of `detections`) is not modelled. A run is a number that tells its handler closures apart. Event dispatch to the handlers is not modelled either.
- The object URL for the video, `fetch`, `FormData`, the JSON parsing of responses and the Blob download are browser I/O. The object URL is a parameter. The request's outcome is the `FetchOutcome` value. The download is the report value it would save.
- UploadCard.UploadCard.HandleUpload: the handler is modelled as one step, with no other handler of the card running while the request is pending; StartUpload and FinishUpload are its two halves, and HandleUploadWithFileChange is the run with a file picked in between. The two optional callbacks are modelled as the one page they come from, null when absent. `loading`, which disables the button, is the page's and is not modelled as blocking a second click. The case where `onUploadComplete` itself throws, which would make the catch block call it a second time, is not modelled.
- Page.UploadResult: JSON fields of the wrong type, such as a string confidence, are not modelled. For well-typed fields, `||` and `??` coincide.
- frontend/components/AlertModal.jsx, frontend/components/Navbar.jsx and frontend/tailwind.config.js are presentation only. The alert's `onClose` is modelled as `Page.Home.CloseAlert`.
