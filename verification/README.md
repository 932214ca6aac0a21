# Cowcatcher event windows in Dafny

Cowcatcher watches camera streams with an object detector and sends a few pictures when
it sees a mounting event. Behind the camera and network plumbing sits a small state
machine. It takes the highest box confidence of each processed frame and turns that
stream into a few decisions: when to open a collection window, when to close it,
which frames to send, and whether to send them at all.

The repository contains four editions of that machine and two exporter factories. This
project models them as pure functions over immutable records and proves what they
guarantee:

- `EventEngine` (engine.dfy) is the history-aware window shared by `AiDetection.execute`
  (src/cowcatcher/aiDetection.py) and the script loop (src/cowcatcher/cowcatcherai.py).
  Its parts:
  - a ten-entry history;
  - a cooldown-gated open that seeds the window from the history;
  - four OR'ed stop conditions;
  - selection of the peak and its neighbours, sorted and cut to `max_screenshots`;
  - a two-part notify gate;
  - a notification counter with "sound every n-th".

  `Selection` (selection.dfy) holds the selection and the gate, and `Common` (common.dfy)
  the Python list primitives they rely on.
- The two editions differ in one place. In `AiDetection.execute` the peak latch and the
  inactivity timer are assigned to locals (lines 269 and 274), so they never engage.
  `Edition` selects `Threaded` (as written) or `Script` (working latch and timer).
- `ThreadedEdition` (threaded.dfy) is the `execute` call: a frame counter, every n-th frame
  processed, and a blanket exception handler.
- `ScriptEdition` (script.dfy) is the script's loop with its fixed constants, plus
  `detect_mounting_peak`.
- `SlidingWindow` (sliding.dfy) is the `Detector` of src/aidetector/detector.py: detection
  timestamps pruned to `time_seconds`, and an export gated on `frames_min` and the
  window's age.
- `FixedWindow` (fixed.dfy) is the `Detector` of src/cowcatcher/detector.py. Its window
  lasts a fixed `collection_seconds` and keeps the most recent result that had boxes.
- `Exporters` (exporters.dfy) decides which exporters a detector gets: `create_exporters`
  with its constructors' guards, and `Detector.fromConfig` of the aidetector package.

Time is an integer number of microseconds (`Common.Time`, the resolution of Python's
`datetime`). Configured durations are taken to be whole seconds, compared as `d * Second`.
Confidences are reals. A processed frame is an `Observation`: its time, its top box
confidence (`None` when the detector found no box) and an opaque frame reference.

## Behaviour worth knowing

These are properties of the code as written. Each one is proved in the model.

- The caption labels depend on how many frames were **selected**, not how many were
  collected. With `max_screenshots = 2` (the script's setting) every label is "Best
  capture" or "Extra capture". For example, an event with confidences 0.86, 0.91, 0.88
  sends the first two frames, labelled Extra and Best (`TwoShotsOfThreeFrameEvent`).
- `last_detection_time` is set by every qualifying collected frame, not only by a sent
  notification. The cooldown therefore also runs after a window that failed the gate
  (`QualifyingFrameRestartsCooldown`).
- Frames of 0.75, 0.80 and 0.90 at 0, 1 and 2 seconds close the script's window at
  2 seconds, by the "0.85 after one second" rule. Nothing is sent, because only one
  frame reaches the notify threshold where three are required
  (`ShortRisingEventIsNotNotified`).
- The frame that opens a window is collected twice: once seeded from the history and
  once live (`OpeningFrameCollectedTwice`).
- The one- or two-frame selection is also cut to `max_screenshots`. A negative
  `max_screenshots` follows Python slicing and drops frames from the end.
- The sliding window stores the current frame's maximum confidence, not a running
  maximum. Its image is replaced only when the new frame beats the previous frame's
  value.

## Model

| member | source | states |
|---|---|---|
| `Common.PyPrefix` | src/cowcatcher/aiDetection.py:329 | `xs[:n]` is a prefix of `xs` of length `min(n, len)` for `n >= 0`, and `len + n` (at least 0) for negative `n` |
| `Common.Range` | src/cowcatcher/aiDetection.py:314 | `list(range(lo, hi))` has `hi - lo` elements and element `i` is `lo + i` |
| `Common.CountAtLeast` | src/cowcatcher/aiDetection.py:298 | the count is positive exactly when some frame reaches the threshold, and equals the number of frames exactly when every frame does |
| `Common.CountAtLeastAppend` | src/cowcatcher/aiDetection.py:298 | a frame added at the end raises the count by one exactly when it reaches the threshold |
| `Common.CountAtLeastCountsPositions` | src/cowcatcher/aiDetection.py:298 | the count is the number of positions whose confidence is at or above the threshold |
| `Common.Max` | src/cowcatcher/aiDetection.py:305 | `max` returns an element of the list that no element exceeds |
| `Common.IndexOf` | src/cowcatcher/aiDetection.py:306 | `list.index` returns the first position holding the value |
| `Common.SortCorrect` | src/cowcatcher/aiDetection.py:329 | `sorted` returns an ascending permutation of its input |
| `Selection.SortedCandidatesAreNeighbourhood` | src/cowcatcher/aiDetection.py:309-329 | sorting the proposed indices gives every index of a short event, otherwise the indices at distance at most one from the peak, clipped to the event, in ascending order |
| `Selection.SelectIndices` | src/cowcatcher/aiDetection.py:305-329 | the selection is strictly ascending, within `[0, len)`, of at most `min(3, len)` indices and at most `max_screenshots` when that is not negative; it is a prefix of `[0, len)` for events of at most two frames; it contains the peak when `max_screenshots >= 2` |
| `Selection.ThreeShotsAreBeforePeakAfter` | src/cowcatcher/aiDetection.py:344-348 | when three indices are selected they are the peak's predecessor, the peak and its successor, labelled Before peak, Peak and After peak |
| `Selection.CountConditionImpliesMaxCondition` | src/cowcatcher/aiDetection.py:333 | with at least one corroborating frame required, the gate passes exactly when enough frames reach the notify threshold |
| `EventEngine.Push` | src/cowcatcher/aiDetection.py:184-192 | the bounded history gains the frame as its newest entry, keeps the latest entries before it, and never holds more than ten |
| `EventEngine.Seeds` | src/cowcatcher/aiDetection.py:215-239 | seeding takes exactly the history entries at or above the save threshold, each marked as coming from the history (their order and multiplicity are fixed by `EngineProperties.SeedsAppend`) |
| `EngineProperties.SeedsAppend` | src/cowcatcher/aiDetection.py:215-239 | seeding a history extended by one entry seeds the history, then that entry once if it reaches the threshold, so the seeds keep the history's order and multiplicity |
| `EventEngine.PeakIndex` | src/cowcatcher/aiDetection.py:305-306 | the peak is the first collected frame of highest confidence |
| `EventEngine.Close` | src/cowcatcher/aiDetection.py:295-438 | closing notifies (or hits the sound division by zero) exactly when the gate passes; the counter advances by one exactly then; a notification restarts the cooldown, carries the selection, the new counter, `play_sound` iff the counter is a multiple of the cadence, and the window's duration; a failed gate reports why; every close but the fault clears the window, the latch and the timer |
| `EngineProperties.SelectedShotsRanked` | src/cowcatcher/aiDetection.py:340-392 | a notification sends at most three frames (at most `max_screenshots`), ranked 1, 2, 3 in order, drawn from the collected frames; the shots of a one- or two-frame event are its first frames in order, and all of them when `max_screenshots` allows |
| `EngineProperties.SelectedShotsIncludePeak` | src/cowcatcher/aiDetection.py:305-348 | with room for two shots the peak frame is sent, labelled as the best capture or the peak |
| `EngineProperties.SelectedShotsLabels` | src/cowcatcher/aiDetection.py:344-348 | up to two shots are labelled Best/Extra, and a shot is Best exactly when its index is the peak index (`max_idx`); three shots are Before peak, Peak, After peak, with the peak in the middle |
| `EngineProperties.OpensOnlyWhenPermitted` | src/cowcatcher/aiDetection.py:198-212 | an idle window opens exactly on a frame at or above the save threshold once the cooldown is over |
| `EngineProperties.QualifyingFrameRestartsCooldown` | src/cowcatcher/aiDetection.py:244-265 | a qualifying frame in an open or just opened window sets the last detection time to its own time, whatever the gate decides |
| `EngineProperties.CooldownHoldsOffNewWindow` | src/cowcatcher/aiDetection.py:198-207 | within the cooldown of the last qualifying frame an idle window stays idle and nothing changes in the cooldown or the counter |
| `EngineProperties.NoWindowDuringCooldown` | src/cowcatcher/aiDetection.py:198-207 | over any run of frames within the cooldown nothing opens, closes or is sent |
| `EngineProperties.NoQualifyingFrameNoEvent` | src/cowcatcher/aiDetection.py:207 | a run without a frame at the save threshold opens no window and sends nothing |
| `EngineProperties.OpeningFrameCollectedTwice` | src/cowcatcher/aiDetection.py:207-259 | the opening frame's window is the qualifying history (which ends with this frame) plus this frame again, so it holds 2 to 11 frames and ends with the frame twice |
| `EngineProperties.ClosesOnceCollectionTimeReached` | src/cowcatcher/aiDetection.py:279-289 | the first processed frame at least `collection_time` after the open closes the window |
| `EngineProperties.OpenWindowIsYoung` | src/cowcatcher/aiDetection.py:279-289 | a window left open by a frame is younger than `collection_time` at that frame |
| `EngineProperties.CloseResetsWindow` | src/cowcatcher/aiDetection.py:436-438 | every close except the sound fault leaves the window idle with the latch and the timer cleared |
| `EngineProperties.CounterAdvancesOnlyOnNotify` | src/cowcatcher/aiDetection.py:333-335 | the counter advances by one exactly when a closing window passes the gate |
| `EngineProperties.FailedGateSendsNothing` | src/cowcatcher/aiDetection.py:414-421 | a failed gate sends nothing and leaves the counter and the last detection time alone |
| `EngineProperties.StepStopConditions` | src/cowcatcher/aiDetection.py:198-289 | in terms of the state before the frame: a frame closes a window exactly when a window is open or opened by it, and the latched peak has had `min_collection_time`, or the window has lasted `collection_time`, or the frame reaches 0.85 a second or more after the open, or the inactivity time reaches `inactivity_stop_time`. The latched peak includes this frame's own peak, and the inactivity time is re-measured from the last qualifying frame, only in the script; in the threaded edition both are the stored values |
| `EngineProperties.StepClosesIff` | src/cowcatcher/aiDetection.py:242-289 | a frame closes a window exactly when, after the open check and the collection of the frame, a window is open and a stop condition holds |
| `ThreadedEdition.Execute` | src/cowcatcher/aiDetection.py:143-157 | every call counts a frame; the window runs exactly on calls whose count is a multiple of `process_every_n_frames`, and such a call reports the window step's closing (the notification, if any); a zero cadence is a division fault that leaves the window alone |
| `ThreadedEdition.StepKeepsLatchInert` | src/cowcatcher/aiDetection.py:264-274 | a processed frame never sets the peak latch or the inactivity timer |
| `ThreadedEdition.LatchNeverEngages` | src/cowcatcher/aiDetection.py:75-80 | from construction on, over any sequence of calls, the peak latch stays false and the inactivity timer stays 0 |
| `ThreadedEdition.OnlyTwoStopConditions` | src/cowcatcher/aiDetection.py:286-289 | with the latch inert a frame closes a window exactly at `collection_time`, or at a 0.85 frame once the window is a second old (or always when the inactivity time is not positive) |
| `ThreadedEdition.PeakRuleNeverFires` | src/cowcatcher/aiDetection.py:268-269 | a 0.90 frame then a 0.75 frame four seconds later close the script's window but leave this edition's open |
| `ThreadedEdition.InactivityRuleNeverFires` | src/cowcatcher/aiDetection.py:273-274 | a 0.75 frame then a frame without boxes six seconds later close the script's window but leave this edition's open |
| `ScriptEdition.Tick` | src/cowcatcher/cowcatcherai.py:209-225 | a failed read changes nothing; a read frame is counted, and the window runs exactly on even counts |
| `ScriptEdition.CountsOnlyReadFrames` | src/cowcatcher/cowcatcherai.py:210-219 | over any sequence of reads the frame counter grows by the number of successful reads |
| `ScriptEdition.ScriptPeakLatch` | src/cowcatcher/cowcatcherai.py:315-317 | while a window is open the latch is set exactly when one of its live frames reached the peak threshold; it is cleared at every open |
| `ScriptEdition.ScriptInactivity` | src/cowcatcher/cowcatcherai.py:306-323 | in an open window a qualifying frame zeroes the inactivity timer and restarts the last detection time; any other frame sets the timer to the time since the last qualifying frame |
| `ScriptEdition.StepKeepsDetection` | src/cowcatcher/cowcatcherai.py:257-312 | with a positive save threshold, an open window always has a last detection time |
| `ScriptEdition.ScriptShotsAreBestOrExtra` | src/cowcatcher/cowcatcherai.py:376-395 | with the script's constants the sound cadence never divides by zero, and a notification sends at most two frames, each labelled Best capture or Extra capture |
| `ScriptEdition.DetectMountingPeak` | src/cowcatcher/cowcatcherai.py:182-205 | no peak for fewer than five entries or a maximum below 0.89; otherwise the first maximum, an entry up to two before it and one up to two after it, clipped to the history, at most four apart |
| `ScriptEdition.TwoShotsOfThreeFrameEvent` | src/cowcatcher/cowcatcherai.py:355-395 | confidences 0.86, 0.91, 0.88 send the first two frames, labelled Extra capture (rank 1) and Best capture (rank 2) |
| `ScriptEdition.ShortRisingEventIsNotNotified` | src/cowcatcher/cowcatcherai.py:333-344 | frames of 0.75, 0.80, 0.90 at 0, 1, 2 s close the window at 2 s with one high-confidence frame of three required, and send nothing |
| `SlidingWindow.Recent` | src/aidetector/detector.py:78-80 | pruning keeps exactly the detection times at most `time_seconds` old, each with all its occurrences, so the length counts them |
| `SlidingWindow.TrySetCollecting` | src/aidetector/detector.py:59-83 | a frame without boxes raises exactly when a window is open; a frame with boxes adds its time, keeps the window's open time (or opens at now), stores the frame's own maximum and replaces the image iff there was no window or the maximum strictly grew; the window is dropped iff no time stays within `time_seconds`, so it survives whenever `time_seconds >= 0` |
| `SlidingWindow.TrySetCollectingCounts` | src/aidetector/detector.py:67-80 | a frame with boxes adds one occurrence of its time: each recent time occurs in the window's list exactly as often as in the old list plus now |
| `SlidingWindow.TrySetCollectingIntended` | src/aidetector/detector.py:77-83 | a frame without boxes only prunes the open window's own times, keeping every occurrence of a recent time, and drops the window iff none stays recent |
| `SlidingWindow.BoxedFrameAddsOneDetection` | src/aidetector/detector.py:67-80 | while no earlier time has expired, a frame with boxes lengthens the detection list by exactly one, the length the `frames_min` test of line 91 reads |
| `SlidingWindow.IntendedAgreesWhenNoFault` | src/aidetector/detector.py:59-83 | the intended update agrees with the code as written wherever the latter does not raise |
| `SlidingWindow.IntendedKeepsRecentDetections` | src/aidetector/detector.py:77-80 | after the intended update every retained time is within `time_seconds` of now |
| `SlidingWindow.TryExport` | src/aidetector/detector.py:85-108 | a window exports its image exactly when it holds `frames_min` times and is `time_seconds` old, and is then dropped; otherwise nothing changes |
| `SlidingWindow.DispatchIsolated` | src/aidetector/detector.py:99-104 | every exporter is called in order whatever the earlier ones raise, and exactly the raising ones are logged |
| `SlidingWindow.BoxedStreamNeverCrashes` | src/aidetector/detector.py:53-55 | a stream in which every frame has boxes never ends the runner loop |
| `SlidingWindow.ExportedImagesWereFed` | src/aidetector/detector.py:62-74 | every exported image is the image of a fed frame (or of the window it started with) |
| `SlidingWindow.GapCrashesRunner` | src/aidetector/detector.py:67-79 | a frame with boxes then one without a second later end the runner loop, where the intended update keeps the window |
| `FixedWindow.ChooseSource` | src/cowcatcher/detector.py:30-32 | the first source alone when it ends in .mp4, .avi or .mov, otherwise all sources; an empty list raises |
| `FixedWindow.TrySetCollecting` | src/cowcatcher/detector.py:43-50 | a result with boxes becomes the stored result with its top confidence, keeping the open time or opening at now; a result without boxes changes nothing |
| `FixedWindow.DispatchInOrder` | src/cowcatcher/detector.py:58-59 | exporters are called in order; the call list is every exporter when none raises, otherwise the prefix ending at the first raising one |
| `FixedWindow.TryExport` | src/cowcatcher/detector.py:52-60 | a window exports its stored result exactly when it is `collection_seconds` old, and is dropped unless an exporter raised |
| `FixedWindow.GatherKeepsLatestBoxed` | src/cowcatcher/detector.py:39-50 | without an export the window holds the most recent result with boxes and its confidence, opened at the first result with boxes unless it was open already |
| `FixedWindow.NothingDueNothingExported` | src/cowcatcher/detector.py:39-56 | while no window is due, the loop exports nothing and its window is the gathered one |
| `Exporters.Or` | src/cowcatcher/exporters/telegram.py:17 | `a or b` is `a` when it is a non-empty string, otherwise `b` |
| `Exporters.NewTelegramExporter` | src/cowcatcher/exporters/telegram.py:11-20 | the constructor raises exactly when the token is missing or neither chat id is usable, and otherwise uses the per-detector chat id if non-empty, else the global one |
| `Exporters.NewDiskExporter` | src/cowcatcher/exporters/disk.py:12-16 | the constructor raises exactly when no save directory is set |
| `Exporters.CreateExporters` | src/cowcatcher/exporters/factory.py:7-16 | the factory raises exactly when its guard admits Telegram but no chat id is usable; otherwise at most two exporters, Disk iff a save directory is set, Telegram iff the guard holds, with the chat id used, Disk first |
| `Exporters.EmptyChatIdBreaksFactory` | src/cowcatcher/exporters/factory.py:11-15 | a token, an empty per-detector chat id and no global chat id make the factory raise |
| `Exporters.CreateExportersIntended` | src/cowcatcher/exporters/factory.py:7-16 | with the guard matching the constructor, Telegram is present iff a token and a usable chat id exist, and nothing raises |
| `Exporters.IntendedFactoryAgrees` | src/cowcatcher/exporters/factory.py:7-16 | the intended factory returns what the one as written returns whenever the latter does not raise, and only the Disk exporter otherwise |
| `Exporters.TelegramFromConfig` | src/aidetector/exporters/telegram.py:24-28 | a Telegram exporter exists iff a token and a usable chat id exist, with that chat id |
| `Exporters.DiskFromConfig` | src/aidetector/exporters/disk.py:18-21 | a Disk exporter exists iff a save directory is set |
| `Exporters.Present` | src/aidetector/detector.py:43 | `filter(None, ...)` keeps exactly the present exporters |
| `Exporters.AiDetectorExporters` | src/aidetector/detector.py:41-44 | at most two exporters, each present iff its `fromConfig` builds it, Telegram before Disk |
| `Exporters.AiDetectorSkipsEmptyChatId` | src/aidetector/exporters/telegram.py:25-27 | the configuration that breaks the cowcatcher factory just yields no exporter here |

## Left out

- Object detection: `model.predict`, the box sorting, `results[0].plot()`. Each processed frame is an input: its time, its top confidence or `None`, and an opaque frame reference. An empty box list is "no box". A `None` box list is not modelled: `len(results[0].boxes)` raises on it in both engine editions (src/cowcatcher/aiDetection.py:173, src/cowcatcher/cowcatcherai.py:232). In the threaded edition the handler of `execute` ends that call; in the script the `try` wraps the whole `while` loop (src/cowcatcher/cowcatcherai.py:208-209, 493), so the exception ends the script.
- Image and file I/O: `cv2.imwrite`/`imread`, the save paths and file names, and the annotated-or-original `send_path` choice. These act on opaque images and never change the window state.
- Sending: the notifiers, the Telegram and Home Assistant calls, and the exporters' `export` bodies. A send's result does not change state. Which exporters raise is a parameter of the dispatch functions.
- Every processed frame has a single `now`. The several `datetime.now()` calls of one step are treated as one value. `total_seconds()` is exact on microseconds, and float rounding of durations is not modelled.
- Confidences are exact reals; floating-point comparison is not modelled.
- Threads, the export thread of the aidetector package, signal handling, configuration loading, camera reconnection, and the `sleep` after a failed read. A failed read is a `ReadFailed` input.
- Log messages, including the script's stop-reason log. That log runs after the reset, which clears the latch and the inactivity timer but not the frame's `highest_conf` or `collection_duration`. So it reports either the very-high-confidence reason (a 0.85 frame at least a second into the window) or the maximum-collection-time reason, and never the inactivity or the peak reason (src/cowcatcher/cowcatcherai.py:464-478). It affects only the log text.
- ThreadedEdition.Execute: a failed camera read is not modelled. `capture_camera_image` then returns `None` (src/cowcatcher/ipcameras.py:72-79). If `predict` returns results for it, line 185 or 190 of src/cowcatcher/aiDetection.py appends to `confidence_history`, and the `frame.copy()` next to it raises into the handler at line 450. The confidence history is then one entry ahead of the frame and timestamp histories, so the seeding at lines 215-239 pairs confidences with the wrong frames. The model keeps the three histories as one list of snapshots and cannot express that drift. The handler's stop message is not modelled either.
- Durations: the threaded edition reads its `detection_settings` from JSON, so a duration may be a fractional number of seconds. The model takes every configured duration to be a whole number of seconds.
- Exporters.DiskFromConfig: the aidetector Disk exporter's directory is stated as configured, without the `detections` prefix that `os.path.join` adds.
- SlidingWindow.DispatchIsolated: the aidetector exporters receive the image bytes where their `export` expects a list of detections. On non-empty bytes the Telegram exporter's `export` raises `AttributeError` at `sorted_detections[0].confidence`, and its own `try` catches and logs it (src/aidetector/exporters/telegram.py:30-53). The Disk exporter's `export` raises `AttributeError` at `result.confidence` (src/aidetector/exporters/disk.py:23-24), and the dispatcher's per-exporter handler logs it. On empty bytes both return without exporting. Which exporters raise is the `raises` parameter, so this is covered rather than modelled.
- src/cowcatcher/config.py is not part of this model. It defines only a JSON/INI `Config` loader (src/cowcatcher/config.py:10) with no `DetectorConfig` and no Telegram or save-directory fields. So the imports of `DetectorConfig` from `cowcatcher.config` at src/cowcatcher/exporters/factory.py:1 and src/cowcatcher/detector.py:7 cannot succeed as the repository stands. The model's `Config`/`DetectorConfig` records are taken from the attributes the factories and the exporters read, and the factory finding below assumes such a module. The detector settings are a `Settings` record.

## Findings

| source | as written | input that shows it | evidently intended | confidence | as-written member | corrected member |
|---|---|---|---|---|---|---|
| src/cowcatcher/aiDetection.py:268-269 | `peak_detected = True` assigns a local, so the peak latch never engages | frames of 0.90 at 0 s and 0.75 at 4 s: the window stays open | `self.peak_detected = True`, as in the script, so a window closes `min_collection_time` after a peak | not executed | `ThreadedEdition.PeakRuleNeverFires` | `ScriptEdition.ScriptPeakLatch` |
| src/cowcatcher/aiDetection.py:273-274 | `inactivity_period = ...` assigns a local, so the inactivity stop never fires | a 0.75 frame at 0 s and a frame without boxes at 6 s: the window stays open | `self.inactivity_period = ...`, so `inactivity_stop_time` without qualifying frames closes the window | not executed | `ThreadedEdition.InactivityRuleNeverFires` | `ScriptEdition.ScriptInactivity` |
| src/aidetector/detector.py:77-79 | the pruning reads the local `detections`, which only frames with boxes assign | a frame with boxes at 0 s, then a frame without boxes at 1 s: `UnboundLocalError` ends the runner thread | prune `self.collecting.detections`, so old times expire on any frame | not executed | `SlidingWindow.GapCrashesRunner` | `SlidingWindow.TrySetCollectingIntended` |
| src/cowcatcher/exporters/factory.py:11-15 | the guard tests the chat ids with `is not None`, the constructor with `or` | token "token", per-detector chat id "", no global chat id: `ValueError` | guard on the chat id the constructor will use (`detector or global`) | not executed | `Exporters.EmptyChatIdBreaksFactory` | `Exporters.CreateExportersIntended` |
