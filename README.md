# Six-arm arena tracking and recording: a Dafny model

The 6armbox scripts run on a Raspberry Pi above a six-arm arena. They find a moving animal
in the camera image, place it in one of six 60-degree piezo sectors or in a central disc,
drive six camera-trigger GPIO outputs, and record video plus a CSV log in sessions that
keys pause ('m'), resume ('c') and end ('q'). Smaller scripts toggle side cameras from a
GPIO input or a key, log ON/OFF events, rotate encoder output files, or set GPIO pins by
hand.

This project models the decision logic of those scripts in Dafny and proves what the code
promises about it:

- **Arena geometry** (`geometry.dfy`): the `atan2` sector, decided exactly on integers and
  proved equal to an independent half-plane wedge test; the inclusive centre disc; the
  quadrant split; the no-track edge bands.
- **Detectors** (`detectors.dfy`): what each script's OpenCV pipeline makes of the contours
  it finds (largest or first acceptable contour, area floors, margins, borders, size caps,
  fixed-size boxes).
- **Camera outputs** (`gpio.dfy`): the six camera pins, the order the branches write them
  in, and what the levels are after (and during) each branch.
- **Text and file names** (`text.dfy`, `sessions.dfy`): `strftime` renderings, `str(n)`,
  `generate_filename`, and the proof that no two files of a run share a name.
- **Recording files** (`sinks.dfy`): open or closed video writers and logs, as values.
- **Per-script state machines**, one module each: `Retrack15` (the reference tracker),
  `Retrack12`, `Retrack10`, `Retrack9`, `Retrack8`, `Recordonly`, the redetecting trackers
  of the Tacker and Track scripts (`redetect.dfy`), `Tacker10e`, `Track13`, the side
  cameras (`sidecams.dfy` for Sidecam1-4, `sidecam5.dfy`, `sidecam_test.dfy`),
  `TestCamera3b`, `manualGPIO` (`manual_gpio.dfy`), `Retrack2`, and the helpers of
  `objecttrack.py` (`objecttrack.dfy`).

Each loop of the scripts is modelled twice: as a pure step function folded over a sequence
of ticks (`Run`), about which the lemmas speak, and as an imperative loop (a `method` with a
`while` loop, or a class whose methods update the script's variables in place) whose
postcondition ties it to that fold. A tick carries what the program reads from outside: the
contours OpenCV finds, the tracker's `(success, box)` reply, the clock and the key.

## Model

| member | source | states |
|---|---|---|
| Geometry.DeterminePiezone | Retrack15.py:94-98 | every pixel gets a sector number in 1..6; the same member serves `Old_versions/Retrack12.py:62-66`, `Retrack2.py:39-43`, `objecttrack.py:151-155` |
| Geometry.Sector | Retrack15.py:94-98 | the sector of an offset from the centre is in 1..6 |
| Geometry.SectorIsWedge | Retrack15.py:94-98 | away from the centre the sector is k exactly when the point lies in the half-open wedge [60(k-1), 60k) degrees, an independent half-plane test; the six wedges partition the plane |
| Geometry.NotOnSteepRay | Retrack15.py:94-98 | no integer offset other than the centre lies on the 60/120/240/300-degree rays, so float rounding at those rays never arises |
| Geometry.SectorOfCentre | Retrack15.py:94-98 | the centre itself has `atan2(0, 0) == 0` and falls in sector 1 |
| Geometry.SectorBoundaryRays | Retrack15.py:94-98 | the 0-degree and 180-degree rays belong to sectors 1 and 4, the sectors that begin there |
| Geometry.SectorHalfTurn | Retrack15.py:94-98 | half a turn about the centre moves a point three sectors on |
| Geometry.SectorMirror | Retrack15.py:94-98 | reflection in the horizontal axis maps sector k to 7 - k |
| Geometry.InCenterBoundary | Retrack15.py:100-103 | the centre test is inclusive: a point on the circle is inside, one pixel further out is not |
| Geometry.InCenterMonotone | Retrack15.py:100-103 | a larger radius never excludes a point a smaller one includes |
| Geometry.Quadrant | tacker10h.py:54-61 | every point gets exactly one quadrant in 1..4; the same member serves `Track7.py:49-56` (the parameterised quadrant split gives exactly one of 1..4), `Track13.py:67-74` |
| Geometry.QuadrantIsCell | tacker10h.py:54-61 | quadrant q is the q-th cell of the 2x2 grid; x = width/2 and y = height/2 fall to the right and bottom cells |
| Text.NatToString | Retrack15.py:113 | `str(n)`: a non-empty string of digits |
| Text.DecimalOfNatToString | Retrack15.py:113 | `int(str(n)) == n`: the rendering reads back as the same number |
| Text.NatToStringInjective | Retrack15.py:113 | distinct numbers render as distinct strings |
| Text.PadReadsBack | Retrack15.py:112 | a zero-padded field reads back as its number |
| Text.Compact | Retrack15.py:112 | the `%Y%m%d_%H%M%S` stamp is 15 characters with `_` at position 8 |
| Text.CompactReadsBack | Retrack15.py:112 | the stamp determines the time to the second: reading it back gives year, month, day, hour, minute, second |
| Text.StemThenSeparatorInjective | Retrack15.py:113 | a common stem, a decimal number and a non-digit separator: equal strings have equal numbers, separators and tails |
| Text.GenerateFilenameInjective | Retrack15.py:111-113 | with one start time and sample, a generated name determines its session number and suffix; the same member serves `Old_versions/Retrack12.py:79-81`, `Recordonly.py:90-92`, `Retrack2.py:56-58`, `objecttrack.py:163-165` |
| Sessions.NamesAreGenerated | Retrack15.py:157-158 | the session names used by the state machines are exactly `generate_filename(.., "video.mp4")` and `generate_filename(.., "log.csv")` |
| Sessions.NamesSeparate | Retrack15.py:323-328 | two names of a run are equal only for the same session and the same kind of file |
| Sessions.NamedSessionsDistinct | Retrack15.py:323-328 | files named for their sessions never share a name, video or log |
| Sessions.NamingsSeparable | Retrack9.py:36-40 | both naming schemes (`_video.mp4`/`_log.csv` and `.mp4`/`_log.csv`) start their suffixes with a non-digit and keep video and log apart |
| Sinks.CloseAllEffect | Retrack15.py:297-311 | releasing the writer and closing the log saves both files in place, and nothing is left open |
| Sinks.OpenNextEffect | Retrack15.py:322-331 | opening a new pair adds two empty files named as given, after the others |
| Sinks.OpenedEffect | Retrack15.py:157-162 | freshly opened files hold no frame and no row, one video name and one log with its header |
| Sinks.PutFrameEffect | Retrack15.py:287-288 | writing a frame appends it after all earlier frames when a writer is open, and changes no row and no name |
| Sinks.PutRowEffect | Retrack15.py:280-285 | writing a row appends it after all earlier rows when a log is open, and changes no frame and no name |
| Sinks.ReopenEffect | Retrack9.py:155-159 | rebinding to new files keeps everything written so far, in order, and adds two empty files named as given |
| Sinks.ReleaseVideoEffect | Old_versions/Retrack10.py:143-145 | releasing only the writer saves the video in place and leaves the log open |
| Sinks.AllFramesWrite | Retrack15.py:287-288 | a frame written to the open file comes after every frame written before |
| Sinks.AllRowsWrite | Retrack15.py:280-285 | a row written to the open log comes after every row written before |
| Text.Pad | Retrack15.py:112 | a zero-padded field has exactly its width and only digits |
| Text.StampReadsBack | Sidecam5.py:29 | a `%Y?%m?%d?%H?%M?%S` stamp has 19 characters, its separators at offsets 4, 7, 10, 13 and 16, and its six fields read back as the date and time to the second |
| Text.MicrosReadsBack | sidecam_testV1.py:39 | a stamp followed by `.%f` has a point at offset 19, and all seven fields read back, microseconds included |
| Text.DashedReadsBack | Sidecam5.py:29 | `%Y-%m-%d_%H-%M-%S`: dashes at 4, 7, 13 and 16, an underscore at 10, and the time read back to the second; the same member serves `Sidecam5.py:45`, `sidecam_testV1.py:14` |
| Text.SpacedReadsBack | Sidecam5.py:49 | `%Y-%m-%d %H:%M:%S`: dashes at 4 and 7, a space at 10, colons at 13 and 16, and the time read back to the second; the same member serves `Sidecam5.py:58` |
| Text.DashedMicrosReadsBack | sidecam_testV1.py:39 | `%Y-%m-%d_%H-%M-%S.%f`: the dashed stamp, a point at 19 and six digits of microseconds, all read back |
| Text.EventStampReadsBack | sidecam_testV1.py:34 | `%Y-%m-%d %H_%M_%S.%f`: dashes at 4 and 7, a space at 10, underscores at 13 and 16, a point at 19, and all seven fields read back |
| Text.DashedMicrosInjective | sidecam_testV1.py:38-39 | two `on_time`s that give the same video name stamp are the same time |
| Text.EventStampInjective | sidecam_testV1.py:33-34 | two times that give the same event stamp are the same time |
| Detectors.FirstLargest | Retrack15.py:122-125 | `max(..., key=contourArea)` over the kept contours: None exactly when nothing is kept, else a largest kept contour with every earlier kept one strictly smaller |
| Detectors.FirstLargestUnique | Retrack15.py:125 | the contour `max` returns is determined: first among equal maxima |
| Detectors.MovingBboxJudgesLargestOnly | Retrack15.py:115-134 | None unless some area exceeds the floor; otherwise the largest alone is judged (m00 and margin) and a refused largest is never replaced by a smaller one; the same member serves `Old_versions/Retrack12.py:83-104` (with margin 80), `tacker10h.py:22-46` (with `min_area` 500 and no margin), `Tacker10i.py:22-46` (with `min_area` 2000 and a strict filter, no margin) |
| Detectors.MarginRefusalIsFinal | Retrack15.py:131-132 | a large contour in the edge band hides a smaller acceptable one |
| Detectors.FirstQualifying | Retrack9.py:107-119 | the index of the first contour with area at least 500, non-zero m00 and centroid x in [50, 590], and None exactly when there is none |
| Detectors.FindFirstQualifying | Retrack9.py:107-119 | the `for contour in contours` loop with its `continue`s and `break` reports exactly the first acceptable contour's centroid |
| Detectors.FirstQualifyingIs | Old_versions/Retrack10.py:93-106 | the first acceptable contour is the one the loop stops at |
| Detectors.FirstQualifyingIsNotLargest | Retrack9.py:107-119 | the first acceptable contour wins over a larger acceptable one after it |
| Detectors.Retrack8DetectJudgesLargestOnly | Old_versions/Retrack8.py:92-99 | the largest contour's box, only if its area exceeds 500 and its centre `x + w // 2` is outside the no-track bands |
| Detectors.FindObjectBboxJudgesLargestOnly | Track7.py:27-41 | None on no contours or a largest area below 500, and on a box over a truthy cap; otherwise the largest contour's box; the same member serves `Track8.py:24-38` (detector on the grayscale frame), `Track9.py:18-33`, `Old_versions/Track8b.py:23-38` |
| Detectors.FindObjectBboxRespectsCaps | Track7.py:38-41 | with caps given, an accepted box is never wider or taller than them |
| Detectors.FindObjectBboxInBorderJudgesLargestOnly | Old_versions/Track10.py:33-48 | the largest contour's box only if its area is at least 500, it is at most 320x240 and lies inside the 100-pixel border |
| Detectors.FindCentredBoxAccepts | Track13.py:43-59 | a 40x40 box on the mask centroid, accepted exactly for centroids in [120, 520] x [120, 360], then inside the border and centred on the centroid |
| Detectors.ClampedMomentsBoxShape | Tacker10f.py:35-41 | a 50x50 box with a non-negative corner, centred on the centroid away from the top-left edges, with no clamp at the right or bottom |
| Detectors.CentroidInBorderAccepts | Old_versions/Tacker10e.py:20-30 | the centroid is returned exactly when 100 <= cx <= 540 and 100 <= cy <= 380, else None |
| Detectors.MaxContrastBoxInFrame | Old_versions/Tacker10i.py:29-40 | the 50x50 box lies inside the frame (0 <= x <= 590, 0 <= y <= 430) and is centred on `max_loc` when no clamp applies |
| Gpio.AllLow | Retrack15.py:201-206 | the six levels all LOW |
| Gpio.OnlyCamera | Retrack15.py:210-218 | six levels with only camera k HIGH |
| Gpio.ApplyInOrder | Retrack15.py:200-263 | after writes in pin order, the first written pins hold the written levels and the rest are untouched |
| Gpio.CentreWrites | Retrack15.py:201-206 | the centre branch writes cam1..cam6 in order |
| Gpio.ZoneWrites | Retrack15.py:210-263 | each zone branch writes cam1..cam6 in order |
| Gpio.BranchWritesEnd | Retrack15.py:200-263 | whatever the levels before, the zone-k branch ends with camera k alone HIGH and the centre branch with all LOW |
| Gpio.ZoneWritesOverlap | Retrack15.py:210-263 | moving from camera j to a lower camera k, cam k is set HIGH while cam j is still HIGH: two cameras are triggered for a moment |
| Gpio.ClearThenRaiseNeverOverlaps | Retrack15.py:200-263 | clearing all six first and then raising camera k never has two HIGH at once and ends in the same levels as the zone branch |
| Gpio.ClearingKeepsAtMostOne | Retrack15.py:201-206 | the centre branch never raises a pin, so at most one stays HIGH at every write |
| Gpio.RaiseAllEnds | Recordonly.py:120-125 | driving cam1..cam6 HIGH in order leaves all six HIGH |
| Gpio.WritePins | Retrack15.py:200-263 | performing the writes one pin at a time on the six-level array gives the levels `ApplyAll` computes |
| Retrack15.RecordingStep | Retrack15.py:170-336 | a tick while recording counts the frame, tracks and records, then handles the key |
| Retrack15.PausedStep | Retrack15.py:174-180 | a tick while paused only counts the frame before handling the key |
| Retrack15.RunAfterQuit | Retrack15.py:294-295 | after 'q' the loop is left: later ticks change nothing |
| Retrack15.InitValid | Retrack15.py:150-168 | the start state satisfies the invariants: outputs match the camera code, files open exactly while recording, frames numbered in order, sessions named for their numbers |
| Retrack15.StepKeepsInvariants | Retrack15.py:170-336 | every tick keeps those invariants |
| Retrack15.RunKeepsInvariants | Retrack15.py:170-336 | so does every sequence of ticks from the start |
| Retrack15.TrackAndRecordKeepsMode | Retrack15.py:180-288 | recording a frame touches neither the frame count, the session, the pause and run flags nor the LED |
| Retrack15.TrackAndRecordAppends | Retrack15.py:280-288 | a recording pass adds exactly one row (the tick's row) and one frame numbered with the frame count, and renames no file |
| Retrack15.RecordingTickWritesOne | Retrack15.py:174-288 | a tick while recording writes exactly one row and one frame, both numbered with the new frame count |
| Retrack15.PausedTickWritesNothing | Retrack15.py:174-180 | a tick while paused counts the frame but writes neither row nor frame |
| Retrack15.TrackedTickActuates | Retrack15.py:181-263 | when a tracker exists or is started this tick and reports the object, the camera code is 0 in the centre and the sector otherwise, exactly that camera's output is HIGH, and the row holds frame, sector, centre flag and camera code |
| Retrack15.LostTickRepeatsCamera | Retrack15.py:281-285 | with no tracker, or a lost object, the tracker is dropped, outputs and camera code stay, and the row has zone 0, no centre and the previous camera code |
| Retrack15.StationaryRelease | Retrack15.py:271-278 | a tracker is released exactly when the centre equals the previous one and more than 3 s have passed since the clock was reset; any move resets the clock |
| Retrack15.NewTrackerSurvivesItsFirstTick | Retrack15.py:181-187 | a tracker started this tick survives the tick, with its clock at now |
| Retrack15.ResumeStartsNextSession | Retrack15.py:315-334 | 'c' while paused starts session n+1 with new files named for it, a five-column header (rows keep six values), tracking reset and the LED blinking |
| Retrack15.ResumeIgnoredWhileRecording | Retrack15.py:315 | 'c' while recording does nothing beyond recording the frame |
| Retrack15.PauseSavesSession | Retrack15.py:297-313 | 'm' saves and closes both files of the session and stops the LED; every session so far has a saved video and log |
| Retrack15.QuitClosesEverything | Retrack15.py:294-295 | 'q' ends the run with every file saved and closed; later ticks change nothing |
| Retrack15.KeyKeepsFiles | Retrack15.py:294-313 | keys other than a resume while paused keep every file, in order |
| Retrack15.KeyKeepsOutputs | Retrack15.py:294-334 | key handling never touches the outputs, the camera code or the frame count |
| Retrack15.FilesNeverShareNames | Retrack15.py:157-158 | no two files of a run share a name |
| Retrack15.TrackAndRecordKeepsInvariants | Retrack15.py:180-288 | recording a frame keeps the outputs matching the camera code and the tracker variables consistent |
| Retrack15.RecordingKeepsInvariants | Retrack15.py:174-288 | a tick while recording keeps all the invariants |
| Retrack15.HandleKeyKeepsInvariants | Retrack15.py:292-334 | every key keeps all the invariants |
| Retrack15.ResumeKeepsRecords | Retrack15.py:315-334 | 'c' while paused keeps the rows and frames numbered in order and the sessions named |
| Retrack15.RunKeepsTrackerConsistent | Retrack15.py:181-285 | after any run `tracker` and `tracking` agree, and a remembered position always has its stationary clock |
| Retrack15.RecordingFrameWritesOne | Retrack15.py:280-288 | recording a frame logs and saves exactly that frame number, after all earlier ones |
| Retrack15.TrackedFrameActuates | Retrack15.py:194-263 | with a tracker and a reported object, the camera code is 0 in the centre circle and the zone otherwise, the outputs are that camera's levels, and the row logged carries zone, centre flag and code |
| Retrack15.Recorder.constructor | Retrack15.py:150-168 | the main loop's variables start as the start state, with a six-level output array |
| Retrack15.Recorder.StartTracker | Retrack15.py:181-187 | without a live tracker, detection starts one and its clock |
| Retrack15.Recorder.Actuate | Retrack15.py:200-263 | the branch's writes are performed on the output array and the camera code set |
| Retrack15.Recorder.CheckStationary | Retrack15.py:271-278 | the stationary rule on the tracker variables |
| Retrack15.Recorder.FollowObject | Retrack15.py:194-280 | the tracked branch, equal to the step function's |
| Retrack15.Recorder.DropTracker | Retrack15.py:281-285 | the lost branch, equal to the step function's |
| Retrack15.Recorder.SaveFrame | Retrack15.py:287-288 | the frame is appended to the open video |
| Retrack15.Recorder.RecordFrame | Retrack15.py:180-288 | the body of `if not paused`, equal to the step function's |
| Retrack15.Recorder.Pause | Retrack15.py:297-313 | 'm' on the variables |
| Retrack15.Recorder.StopTracking | Retrack15.py:318-319 | both tracking variables cleared |
| Retrack15.Recorder.OpenSession | Retrack15.py:322-334 | new files opened under the given names |
| Retrack15.Recorder.Resume | Retrack15.py:315-334 | 'c' while paused on the variables |
| Retrack15.Recorder.HandleKeyPress | Retrack15.py:292-334 | the key handling; 'q' only leaves the loop |
| Retrack15.Recorder.RunTick | Retrack15.py:170-336 | one pass of the loop body equals the step function, except that on 'q' the files are still to close |
| Retrack15.Recorder.Teardown | Retrack15.py:338-342 | after the loop the video is released, the log closed and the LED stopped |
| Retrack15.MainLoop | Retrack15.py:150-342 | the whole run on its variables ends in the state the step function reaches on the same ticks |
| Retrack12.RunAfterStop | Old_versions/Retrack12.py:241-242 | after a quit, or a failed write, later ticks change nothing |
| Retrack12.TrackTickShape | Old_versions/Retrack12.py:150-222 | detection and the lazy opening touch only the tracker and the files; a pair is opened only when none is open |
| Retrack12.AdvanceShape | Old_versions/Retrack12.py:142-222 | counting and tracking keep the video and log paired and write nothing |
| Retrack12.TrackTickKeepsTracker | Old_versions/Retrack12.py:150-222 | a tracked position always has a stationary clock |
| Retrack12.WriteOutEffect | Old_versions/Retrack12.py:224-234 | a frame is written exactly when a video writer is open and a row exactly when the CSV writer is bound to an open log, both numbered with the frame count; a bound writer on a closed log fails |
| Retrack12.HandleKeyKeepsInvariants | Old_versions/Retrack12.py:241-257 | key handling keeps the files paired and closed while paused |
| Retrack12.WriteKeepsInvariants | Old_versions/Retrack12.py:142-234 | counting, tracking and writing keep the invariants; with the writer dropped at pause the write never fails |
| Retrack12.StepKeepsInvariants | Old_versions/Retrack12.py:136-259 | every tick keeps the invariants: files paired and closed while paused, frames and rows numbered in order |
| Retrack12.RunKeepsInvariants | Old_versions/Retrack12.py:136-259 | so does every run from the start |
| Retrack12.CorrectedStepNeverCrashes | Old_versions/Retrack12.py:243-251 | with the writer dropped at pause, no tick fails |
| Retrack12.DetectionOpensSession | Old_versions/Retrack12.py:152-177 | with nothing open, a detection opens the session's video and log (five-column header) and the same tick writes the first frame and row; without one nothing is opened |
| Retrack12.EdgeBandIsLoss | Old_versions/Retrack12.py:188-193 | a box centred in an edge band counts as a lost object: tracker dropped, zone 0, no centre |
| Retrack12.OpenTickWritesOne | Old_versions/Retrack12.py:224-234 | every unpaused tick with an open log writes one frame and one row numbered with the new frame count, tracked or lost |
| Retrack12.ResumeOpensNothing | Old_versions/Retrack12.py:252-257 | 'c' while paused moves to the next session and clears the tracker without opening any file |
| Retrack12.StationaryRelease | Old_versions/Retrack12.py:207-215 | a usable reply drops the tracker exactly when the centre is unchanged for more than 3 s; a move resets the clock |
| Retrack12.PauseKeyStep | Old_versions/Retrack12.py:243-251 | 'm' closes both files and pauses; the CSV writer stays bound unless the correction drops it |
| Retrack12.PausedTickCrashes | Old_versions/Retrack12.py:227-234 | a tick with the writer bound to the closed log fails at its row write |
| Retrack12.PauseThenTickCrashes | Old_versions/Retrack12.py:227-251 | as written, once a session's files are open, 'm' followed by any tick ends the program with a write on a closed file |
| Retrack12.PauseCrashExample | Old_versions/Retrack12.py:227-251 | a concrete three-tick run (detect, 'm', any key) that fails on the third tick |
| Retrack12.CorrectedNeverCrashes | Old_versions/Retrack12.py:243-251 | with the writer dropped at pause, no run ever fails on a closed log |
| Retrack12.CorrectedResumeReopens | Old_versions/Retrack12.py:152-177 | corrected, after 'm' and 'c' the next detection opens files named for the new session |
| Retrack12.Recorder.constructor | Old_versions/Retrack12.py:121-134 | the loop's variables start as the start state |
| Retrack12.Recorder.StartTracker | Old_versions/Retrack12.py:152-177 | detection, and the lazy opening of the session's pair |
| Retrack12.Recorder.CheckStationary | Old_versions/Retrack12.py:207-215 | the stationary rule on the variables |
| Retrack12.Recorder.UpdateTracker | Old_versions/Retrack12.py:180-222 | ask the tracker, refuse the edge bands, classify or drop |
| Retrack12.Recorder.TrackObject | Old_versions/Retrack12.py:150-222 | the body of `if not paused` |
| Retrack12.Recorder.CountAndTrack | Old_versions/Retrack12.py:142-222 | the frame count, then the body of `if not paused` |
| Retrack12.Recorder.Write | Old_versions/Retrack12.py:224-234 | the frame and row writes, failing on a bound writer with a closed log |
| Retrack12.Recorder.HandleKeyPress | Old_versions/Retrack12.py:239-257 | the key handling; 'q' only leaves the loop |
| Retrack12.Recorder.RunTick | Old_versions/Retrack12.py:136-259 | one pass of the loop body equals the step function, except that on 'q' the files are still to close |
| Retrack12.Recorder.TrackAndWrite | Old_versions/Retrack12.py:142-234 | counting, tracking and the two writes of a pass change the variables as the step function does before the key |
| Retrack12.Recorder.Teardown | Old_versions/Retrack12.py:261-265 | after the loop the writer is released and the log closed |
| Retrack12.MainLoop | Old_versions/Retrack12.py:121-265 | the whole run ends in the state the step function reaches on the same ticks |
| Detectors.Detected | Old_versions/Retrack10.py:93-106 | a centroid is found exactly when some contour passes the loop's tests; the same member serves `Retrack9.py:106-119` |
| Retrack10.RunAfterQuit | Old_versions/Retrack10.py:141-142 | after 'q' later passes change nothing |
| Retrack10.GateHoldsForever | Old_versions/Retrack10.py:83-87 | as written, a state without a position keeps none, and the pass only writes its frame |
| Retrack10.AsWrittenNeverLogs | Old_versions/Retrack10.py:59-87 | as written, no run leaves the gate: frames 1..n go to session 1's video, no row is ever logged, no key is read, not even 'q' |
| Retrack10.DetectRule | Old_versions/Retrack10.py:108-115 | a find starts tracking at its centroid and restarts the clock; more than 2 s without one drops tracking and the position; otherwise nothing changes |
| Retrack10.LoggedRow | Old_versions/Retrack10.py:117-132 | the row holds the sector and the inclusive centre test of the last position while tracking, 0 and False otherwise, and FPS 24 |
| Retrack10.PauseReleasesOnlyWriter | Old_versions/Retrack10.py:143-145 | 'm' releases the writer and leaves the log open: later passes still log rows but lose their frames |
| Retrack10.ResumeLeavesOldLog | Old_versions/Retrack10.py:146-155 | 'c' while paused opens session n+1's files, named from a new stamp, without closing the old log |
| Retrack10.DetectKeepsPosition | Old_versions/Retrack10.py:108-115 | tracking always has a position |
| Retrack10.HandleKeyKeepsLog | Old_versions/Retrack10.py:140-155 | no key closes the log or removes a row |
| Retrack10.LogAddsOneRow | Old_versions/Retrack10.py:131-132 | the writes add one row and change nothing else |
| Retrack10.PassLogsOneRow | Old_versions/Retrack10.py:89-157 | a detecting pass without 'q' logs one row and stores the frame |
| Retrack10.StepCounts | Old_versions/Retrack10.py:65-67 | without 'q' a pass is counted and the loop goes on |
| Retrack10.CorrectedStepKeeps | Old_versions/Retrack10.py:65-157 | with the gate on `last_frame`, rows plus the stored first frame equal the passes counted |
| Retrack10.InitCorrectedValid | Old_versions/Retrack10.py:40-63 | the start state opens session 1's log with its header and no row |
| Retrack10.CorrectedLogsEveryPass | Old_versions/Retrack10.py:83-132 | with the corrected gate and no 'q', the first pass stores its frame and every later pass logs exactly one row |
| Retrack10.FrameCountCountsPasses | Old_versions/Retrack10.py:65-67 | without 'q', the frame count equals the number of passes |
| Retrack10.Recorder.constructor | Old_versions/Retrack10.py:40-63 | the module's variables start as the start state |
| Retrack10.Recorder.DetectMotion | Old_versions/Retrack10.py:93-115 | the detection on the variables |
| Retrack10.Recorder.WriteOut | Old_versions/Retrack10.py:117-132 | zones, frame and row on the variables |
| Retrack10.Recorder.HandleKeyPress | Old_versions/Retrack10.py:140-155 | the key handling on the variables |
| Retrack10.Recorder.StoreFirstFrame | Old_versions/Retrack10.py:83-87 | the gate's body |
| Retrack10.Recorder.DetectingPass | Old_versions/Retrack10.py:89-157 | a pass past the gate |
| Retrack10.Recorder.RunTick | Old_versions/Retrack10.py:65-157 | one pass equals the step function |
| Retrack10.Recorder.CountPass | Old_versions/Retrack10.py:67 | `frame_count += 1` and nothing else |
| Retrack10.Recorder.Teardown | Old_versions/Retrack10.py:159-161 | the writer and the log are closed |
| Retrack10.MainLoop | Old_versions/Retrack10.py:40-161 | the whole run ends in the state the step function reaches, with the files closed after 'q' |
| Retrack9.HalfTurnPiezone | Retrack9.py:132 | the zone is always in 1..6 |
| Retrack9.HalfTurnPiezoneShift | Retrack9.py:132 | adding half a turn to the angle makes the zone three sectors on from `determine_piezone`'s, so the two numberings never agree on a position |
| Retrack9.InCenterStrictBoundary | Retrack9.py:133 | the strict test is the inclusive one minus the circle itself: a point at distance exactly 100 is outside |
| Retrack9.RunAfterQuit | Retrack9.py:147-148 | after 'q' later passes change nothing |
| Retrack9.InitValid | Retrack9.py:35-48 | the start state has session 1's pair open with the header and nothing written |
| Retrack9.ZonesInRange | Retrack9.py:121-137 | the logged zone is in 0..6, the centre flag 0 or 1 and set only with a zone |
| Retrack9.WriteKeepsInvariants | Retrack9.py:139-143 | the writes keep every file numbered 0, 1, 2, ... |
| Retrack9.AdvanceKeepsInvariants | Retrack9.py:102-143 | a pass with a background keeps the invariants |
| Retrack9.ResumeKeepsNumbering | Retrack9.py:152-160 | the resume key's new pair starts at 0 and the old pair keeps its numbering |
| Retrack9.ResumeKeepsNames | Retrack9.py:152-160 | after a resume, session k still owns the files named for k |
| Retrack9.HandleKeyKeepsInvariants | Retrack9.py:146-161 | key handling keeps the invariants |
| Retrack9.StepKeepsInvariants | Retrack9.py:90-161 | every pass keeps the invariants |
| Retrack9.RunKeepsInvariants | Retrack9.py:90-161 | so does every run |
| Retrack9.EveryFileCountsFromZero | Retrack9.py:139-160 | in every file of a run, frames and rows are numbered from 0 without gaps, and every row's zone, centre flag and FPS are in range |
| Retrack9.BackgroundPassIgnoresKey | Retrack9.py:97-100 | a pass without tracking stores the background and nothing else; even 'q' is not read |
| Retrack9.KeyKeepsFiles | Retrack9.py:146-151 | keys other than a resume while paused leave the files and the count alone |
| Retrack9.FoundPassLogsPosition | Retrack9.py:121-143 | with a contour found, the row carries that position's zones, even on the pass whose stationary timeout turns tracking off |
| Retrack9.MissedPassLogsZero | Retrack9.py:135-143 | with nothing found, the row logs zone 0 and centre 0, and tracking and the clock are untouched |
| Retrack9.StationaryRule | Retrack9.py:121-131 | within 5 pixels for more than 2 s tracking goes off; a move of 5 pixels or more restarts the clock |
| Retrack9.PausedPassWritesNothing | Retrack9.py:140-143 | while paused nothing is written and the frame count stands still |
| Retrack9.PauseClosesNothing | Retrack9.py:149-151 | 'm' closes nothing; only the writes stop |
| Retrack9.ResumeRestartsNumbering | Retrack9.py:152-160 | 'c' while paused opens session n+1's two new files and restarts the count at 0, keeping the old, unclosed pair |
| Retrack9.FilesNeverShareNames | Retrack9.py:36-40 | no two files of a run share a name |
| Retrack9.Recorder.constructor | Retrack9.py:35-88 | the module's variables start as the start state |
| Retrack9.Recorder.UpdatePosition | Retrack9.py:121-131 | the found branch's bookkeeping on the variables |
| Retrack9.Recorder.WriteOut | Retrack9.py:139-143 | the writes on the variables |
| Retrack9.Recorder.HandleKeyPress | Retrack9.py:146-161 | the key handling on the variables |
| Retrack9.Recorder.RunTick | Retrack9.py:90-161 | one pass equals the step function |
| Retrack9.Recorder.Teardown | Retrack9.py:163-165 | the open pair is closed |
| Retrack9.MainLoop | Retrack9.py:35-165 | the whole run ends in the state the step function reaches, with the files closed after 'q' |
| Retrack8.NoTrackBands | Old_versions/Retrack8.py:47-48 | the edge bands are x < 50 and x > 590; 50 and 590 themselves may be tracked |
| Retrack8.RunAfterQuit | Old_versions/Retrack8.py:143-144 | after 'q' later passes change nothing |
| Retrack8.IncreasingPush | Old_versions/Retrack8.py:133-138 | writing the frame count after earlier, smaller numbers keeps the numbering strictly increasing |
| Retrack8.InitValid | Old_versions/Retrack8.py:67-73 | the start state has session 1's pair open with the header and nothing written |
| Retrack8.PassZonesInRange | Old_versions/Retrack8.py:102-110 | the centre disc lies inside the hexagon radius, so a centre hit always has a sector; nothing is logged without tracking |
| Retrack8.WriteKeepsInvariants | Old_versions/Retrack8.py:133-138 | the writes keep the numbering increasing and the rows in range |
| Retrack8.AdvanceKeepsInvariants | Old_versions/Retrack8.py:85-138 | acquiring or following, then writing, keeps the invariants |
| Retrack8.ResumeKeepsInvariants | Old_versions/Retrack8.py:148-154 | the resume key's new pair keeps the invariants and the session names |
| Retrack8.HandleKeyKeepsInvariants | Old_versions/Retrack8.py:141-154 | key handling keeps the invariants |
| Retrack8.StepKeepsInvariants | Old_versions/Retrack8.py:75-154 | every pass keeps the invariants |
| Retrack8.RunKeepsInvariants | Old_versions/Retrack8.py:75-154 | so does every run |
| Retrack8.RunRowsInOrder | Old_versions/Retrack8.py:133-154 | over a whole run, frame numbers strictly increase across sessions (never reset), and every row's zones are in range and cleared when not tracking |
| Retrack8.BackgroundCapturedOnce | Old_versions/Retrack8.py:85-88 | the background is taken once, by a pass that writes nothing and reads no key |
| Retrack8.AcquireOnDetection | Old_versions/Retrack8.py:85-99 | not tracking, the tracker starts exactly when the detector gives a box, with the clock restarted, and the pass logs zone 0 |
| Retrack8.GoodUpdateZones | Old_versions/Retrack8.py:101-111 | a good update outside the bands logs the sector within 225 pixels (else 0) and the inclusive centre test and restarts the clock; inside a band it logs 0 and False and leaves the clock |
| Retrack8.FailureWaitsForTimeout | Old_versions/Retrack8.py:112-116 | a failed update ends tracking only when the last good one is more than 2 s old |
| Retrack8.KeyKeepsFiles | Old_versions/Retrack8.py:141-147 | keys other than a resume while paused leave the files and the count alone |
| Retrack8.PausedPassWritesNothing | Old_versions/Retrack8.py:133-138 | while paused nothing is written and the count stands still |
| Retrack8.ResumeOpensNextPair | Old_versions/Retrack8.py:148-154 | 'c' while paused closes the pair and opens session n+1's, while the numbering runs on |
| Retrack8.FilesNeverShareNames | Old_versions/Retrack8.py:51-57 | no two files of a run share a name |
| Retrack8.Recorder.constructor | Old_versions/Retrack8.py:67-73 | the module's variables start as the start state |
| Retrack8.Recorder.TryAcquire | Old_versions/Retrack8.py:89-99 | the detection on the variables |
| Retrack8.Recorder.Update | Old_versions/Retrack8.py:100-116 | the tracker update on the variables, returning the zones the pass logs |
| Retrack8.Recorder.WriteOut | Old_versions/Retrack8.py:133-138 | the writes on the variables |
| Retrack8.Recorder.HandleKeyPress | Old_versions/Retrack8.py:141-154 | the key handling on the variables |
| Retrack8.Recorder.RunTick | Old_versions/Retrack8.py:75-154 | one pass equals the step function |
| Retrack8.Recorder.Teardown | Old_versions/Retrack8.py:156-158 | the open pair is closed |
| Retrack8.MainLoop | Old_versions/Retrack8.py:67-158 | the whole run ends in the state the step function reaches, with the files closed after 'q' |
| Recordonly.RunAfterQuit | Recordonly.py:153-154 | after 'q' later ticks change nothing |
| Recordonly.InitValid | Recordonly.py:109-131 | the start state: outputs all HIGH, files open while recording, the start row first |
| Recordonly.RecordEffect | Recordonly.py:143-148 | recording adds one tick row and one frame numbered with the frame count, and renames nothing |
| Recordonly.RecordKeepsInvariants | Recordonly.py:137-148 | recording keeps the rows shaped and numbered, the frames numbered and the names |
| Recordonly.AdvanceKeepsInvariants | Recordonly.py:137-148 | counting and recording keep the invariants |
| Recordonly.HandleKeyKeepsInvariants | Recordonly.py:153-193 | key handling keeps the invariants |
| Recordonly.StepKeepsInvariants | Recordonly.py:133-195 | every tick keeps the invariants |
| Recordonly.RunKeepsInvariants | Recordonly.py:133-195 | every state of a run keeps them: the outputs stay all HIGH, the start row stays first, every later row is a tick row |
| Recordonly.StartState | Recordonly.py:41-46 | the outputs are LOW at import and all HIGH after the six writes at the space bar; session 1's log holds the start row (zone 99, centre 66, camera 7007) |
| Recordonly.KeyKeepsFiles | Recordonly.py:153-172 | keys other than a resume while paused keep every row and frame |
| Recordonly.RecordingTickWritesOne | Recordonly.py:137-148 | a tick while recording writes one row with camera 0 and one frame, numbered with the new frame count |
| Recordonly.PausedTickWritesNothing | Recordonly.py:137-148 | a tick while paused counts the frame but writes nothing |
| Recordonly.PauseAndQuitClose | Recordonly.py:153-172 | 'm' and 'q' close both files and clear `led_thread_running`; every session has its saved pair |
| Recordonly.ResumeOpensNextSession | Recordonly.py:174-193 | 'c' while paused opens session n+1's pair with the "LEDS State" header and sets `led_thread_running` again |
| Recordonly.FilesNeverShareNames | Recordonly.py:90-92 | no two files of a run share a name |
| Recordonly.Recorder.constructor | Recordonly.py:41-131 | import time sets the outputs LOW; the space bar opens session 1, logs the start row and raises all six |
| Recordonly.Recorder.CountAndRecord | Recordonly.py:137-148 | the count, then the row and the frame unless paused |
| Recordonly.Recorder.Pause | Recordonly.py:156-172 | 'm' on the variables |
| Recordonly.Recorder.Resume | Recordonly.py:174-193 | 'c' while paused on the variables |
| Recordonly.Recorder.HandleKeyPress | Recordonly.py:151-193 | the key handling; 'q' only leaves the loop |
| Recordonly.Recorder.Teardown | Recordonly.py:197-200 | after the loop the open files are closed |
| Recordonly.MainLoop | Recordonly.py:109-200 | the whole run ends in the state the step function reaches on the same keys |
| Recordonly.ThreadDiesAtOnce | Recordonly.py:52-62 | `log_writer` is not a module-level name, so as written the thread logs no row and drives LED_PIN to no level |
| Recordonly.CorrectedThreadBlinks | Recordonly.py:52-62 | with `main`'s five names global, the thread logs one row per write with that moment's frame count and camera, the state column alternating 1, 0, …, and LED_PIN HIGH exactly after a state-1 row |
| Redetect.DetectFits | Old_versions/Track10.py:33-48 | every box a script's detector hands to `tracker.init` has that script's shape: capped at 320x240 (Track scripts), inside the border (Track10), 50x50 with a non-negative corner (Tacker10f), 50x50 inside the frame (older Tacker10i) |
| Redetect.MaxContrastNeverEmpty | Old_versions/Tacker10i.py:22-40 | only the older Tacker10i's detector can never come back empty; the contour detectors find nothing in an empty frame |
| Redetect.BoxQuadrant | tacker10h.py:115-117 | the quadrant of a box's centre is in 1..4 |
| Redetect.WaitStopsAtFirst | tacker10h.py:69-79 | the wait loop ends at the first poll that finds a box or reads 'q' ('q' taking precedence), with that poll's box; it goes on only while every poll is empty; the same member serves `Tacker10i.py:68-71` (with a 2000-pixel area floor) |
| Redetect.OldTacker10iWaitsOneFrame | Old_versions/Tacker10i.py:63-73 | the older Tacker10i's detector always answers, so its wait ends after one frame |
| Redetect.WaitForMotion | tacker10h.py:69-79 | the `while bbox is None` loop, as written, gives the outcome `Wait` specifies |
| Redetect.StartupRule | Track7.py:64-77 | the Track scripts start only on a detected box and raise `RuntimeError` otherwise; Tacker10f hands whatever it found, even None, to `tracker.init`; the same member serves `Track8.py:60-70` (on the grayscale frame), `Track9.py:55-65`, `Old_versions/Track8b.py:60-69`, `Old_versions/Track10.py:70-78` (with the border detector), `Tacker10f.py:61-65` (the start-up never refuses: a missing box goes to `tracker.init` unchecked) |
| Redetect.RunAfterQuit | Track7.py:110-111 | after 'q' later passes change nothing |
| Redetect.Passes | Track7.py:82-129 | the loop makes its passes up to and including the first 'q', or all of them |
| Redetect.TrackLoop | Track7.py:82-129 | the tracking loop, as written on `main`'s locals, ends in the state the step function reaches; the same member serves `Track8.py:76-118` (on the grayscale frame), `Track9.py:71-114`, `Old_versions/Track8b.py:75-116`, `Old_versions/Track10.py:84-139` (with a box reaching into the border treated as a failure), `Tacker10f.py:73-124` (with the moments detector), `tacker10h.py:90-134` (loop, keeping each frame as `previous_frame`), `Old_versions/Tacker10i.py:84-128` (with the maximum-contrast detector) |
| Redetect.StartValid | Track7.py:64-77 | a started tracker was started on a box of the right shape |
| Redetect.StartAfterWaitValid | tacker10h.py:69-82 | so was one started after the wait loop |
| Redetect.StepKeepsValid | Track7.py:82-129 | every pass starts trackers only on accepted boxes, and Track10 draws only boxes clear of its border |
| Redetect.RunKeepsValid | Track7.py:82-129 | so does every run |
| Redetect.RunWritesOneFramePerPass | Track7.py:82-129 | exactly one frame is written per pass, and the loop runs until the first 'q' |
| Redetect.PassOutcome | Track7.py:84-126 | a pass draws the tracker's box when it succeeds; otherwise the re-detected box, which restarts the tracker; otherwise nothing and the frame is written as searching |
| Redetect.Track10DriftIsFailure | Old_versions/Track10.py:98-114 | a tracker box reaching into the 100-pixel border is dropped and the frame re-detected |
| Redetect.PreviousIsLastFrame | tacker10h.py:131 | the frame-difference scripts keep every pass's frame as the next `previous_frame` |
| Tacker10e.RunAfterQuit | Old_versions/Tacker10e.py:103-104 | after 'q' later passes change nothing |
| Tacker10e.HexLoop | Old_versions/Tacker10e.py:48-104 | the loop, as written on `main`'s locals, ends in the state the step function reaches |
| Tacker10e.StepKeepsValid | Old_versions/Tacker10e.py:59-104 | every pass keeps the hexagon at 10 or more, every tracker box a square twice such a size with a non-negative corner |
| Tacker10e.RunKeepsValid | Old_versions/Tacker10e.py:48-104 | so does every run from the start |
| Tacker10e.ResizeRule | Old_versions/Tacker10e.py:68-71 | 'b' adds 10; 'v' takes 10 away but never below 10; other keys leave the size |
| Tacker10e.TrackerNeverCleared | Old_versions/Tacker10e.py:72-84 | once started, a tracker is never cleared |
| Tacker10e.StaleTrackerKept | Old_versions/Tacker10e.py:72-94 | turning tracking on without a centroid inside the border keeps the previous tracker, which still writes frames |
| Tacker10e.WritesOnlyWhileTracking | Old_versions/Tacker10e.py:86-94 | a frame is written exactly when the pass ends tracking, with a tracker, and the update succeeds |
| Tacker10e.ToggleOnStarts | Old_versions/Tacker10e.py:76-82 | 'p' with a centroid inside the border starts a tracker on the square of side `2 * hex_size` about it, centred on it away from the clamp |
| Track13.Remove | Track13.py:83 | `list.remove`: one element fewer when present, nothing new, every other element kept, and a removed unique element gone |
| Track13.BonusQuadrantsDistinct | Track13.py:81-84 | whatever the random draws, the two zones are in two different quadrants, each in 1..4 |
| Track13.Bonus1InsideItsCell | Track13.py:89-103 | any centre drawn for bonus1 keeps the whole circle of radius 12 inside its quadrant's cell of the safe area, and `determine_quadrant` puts the centre in that quadrant |
| Track13.Bonus2InsideItsCell | Track13.py:106-121 | any corner drawn for bonus2 keeps the whole 30-pixel square inside its quadrant's cell of the safe area |
| Track13.RunAfterQuit | Track13.py:137-138 | after 'q' later passes change nothing |
| Track13.MainLoop | Track13.py:128-177 | the two nested loops, as one loop over passes, end in the state the step function reaches |
| Track13.CountAppend | Track13.py:158-177 | a new entry adds one to its own zone's count only |
| Track13.CheckBonus1KeepsLatched | Track13.py:158-167 | bonus1's check keeps each latch on exactly while its zone has not been entered |
| Track13.CheckBonus2KeepsLatched | Track13.py:169-177 | so does bonus2's |
| Track13.StepKeepsLatched | Track13.py:128-177 | every pass keeps the latches |
| Track13.EachBonusAtMostOnce | Track13.py:158-177 | over any run each zone is reported at most once, and the "time since last entry" line is never printed: the latch is off by the time a last entry exists |
| Track13.FailureReturnsToSearch | Track13.py:149-151 | a failed update returns to the search and reports nothing |
| Track13.SearchStartsOnlyInsideBorder | Track13.py:133-142 | a search enters the inner loop exactly when the centroid lies in [120, 520] x [120, 360] |
| Track13.NoFrameNoChange | Track13.py:129-131 | a pass before the grabber has a frame changes nothing |
| Sidecams.RunAfterQuit | CameraTest/Sidecam4.py:56-57 | after 'q' later passes change nothing |
| Sidecams.TriggerPass | CameraTest/Sidecam2.py:24-47 | the start/stop branch on the script's locals equals the pure `Trigger` decision |
| Sidecams.RecordPass | CameraTest/Sidecam2.py:49-54 | the `if recording:` block on the locals writes the frame, counts it and writes the row |
| Sidecams.SidecamLoop | CameraTest/Sidecam4.py:27-73 | the loop and the exit handler on the locals end in the state the pure `Session` function reaches; the same member serves `CameraTest/Sidecam2.py:22-63`, `Sidecam3.py:41-84`, `CameraTest/Sidecam1.py:27-64` |
| Sidecams.StartKeepsValid | CameraTest/Sidecam4.py:32-46 | a start opens a take whose log has the two-column header and no row, LED 18 HIGH |
| Sidecams.StopKeepsValid | CameraTest/Sidecam4.py:47-54 | a stop saves the take, LED 18 LOW, nothing left open |
| Sidecams.RecordKeepsValid | CameraTest/Sidecam4.py:59-64 | recording keeps rows numbered from 1, one frame per row |
| Sidecams.StepKeepsValid | CameraTest/Sidecam4.py:28-65 | every pass keeps LED 18 equal to the recording flag and the take numbered |
| Sidecams.RunKeepsValid | CameraTest/Sidecam4.py:28-65 | so does every run |
| Sidecams.SessionClosesAll | CameraTest/Sidecam4.py:69-73 | at exit nothing is open, LED 18 is LOW, and every saved take is numbered from 1 with one frame per row |
| Sidecams.ToggleRule | CameraTest/Sidecam4.py:31-57 | 't' toggles recording, 'q' leaves the loop with nothing written, any other key keeps the state |
| Sidecams.EdgeRule | CameraTest/Sidecam2.py:24-47 | from idle a take starts exactly when the first read of input 15 is high; while recording it stops exactly when the second read is low; the same member serves `CameraTest/Sidecam1.py:29-51` |
| Sidecams.FollowsInput | Sidecam3.py:43-68 | after every pass recording equals `simulated OR input 15` |
| Sidecams.StartWritesRowOne | CameraTest/Sidecam4.py:32-64 | a start opens a fresh take named after the clock and writes row 1 (and frame 1) in the same pass |
| Sidecams.RecordWritesOne | CameraTest/Sidecam2.py:49-54 | a recording pass adds exactly one row numbered one past the last and, except Sidecam1, one frame with that number |
| Sidecams.IdleWritesNothing | CameraTest/Sidecam2.py:49 | an idle pass writes nothing |
| Sidecams.LogOnly | CameraTest/Sidecam1.py:53-56 | Sidecam1 never writes a frame |
| Sidecam5.EventLoop | Sidecam5.py:38-61 | the loop on the script's locals reaches the state of the pure `Run` fold |
| Sidecam5.RunOneMore | Sidecam5.py:39-61 | one more pass of the loop is one more step |
| Sidecam5.InitValid | Sidecam5.py:11-36 | at startup pin 14 is HIGH, pin 18 LOW, and the log holds only its header |
| Sidecam5.TurnOnKeepsValid | Sidecam5.py:42-50 | an ON event keeps the invariant: a video named after `on_time` and an ON row with the same time |
| Sidecam5.TurnOffKeepsValid | Sidecam5.py:52-59 | an OFF event keeps the invariant |
| Sidecam5.StepKeepsValid | Sidecam5.py:40-61 | every pass keeps pin 14 HIGH, pin 18 equal to recording, rows alternating ON/OFF from ON, ending on ON exactly while recording, one video per ON |
| Sidecam5.RunKeepsValid | Sidecam5.py:38-61 | so does every run |
| Sidecam5.EventRule | Sidecam5.py:42-59 | an ON row and a new video come exactly from input HIGH while idle, an OFF row exactly from input LOW while recording, no row otherwise |
| Sidecam5.HeaderOnce | Sidecam5.py:29-32 | the log keeps its startup name and its header is written once |
| ManualGpio.PinIndex | test_scripts/manualGPIO.py:7-14 | keys '1'..'6', and only those, are in the map, each to one of the six outputs |
| ManualGpio.GpioMap | test_scripts/manualGPIO.py:7-14 | '1'..'6' send to BCM pins 14, 15, 18, 23, 24, 25 |
| ManualGpio.KeysRead | test_scripts/manualGPIO.py:36-47 | the loop reads the keys up to and including the first 'q' or 'Q', or all of them |
| ManualGpio.SetUp | test_scripts/manualGPIO.py:18-20 | the setup drives all six outputs LOW |
| ManualGpio.PressKey | test_scripts/manualGPIO.py:37-47 | one key changes the outputs as the pure `Press` says, and the loop breaks exactly on 'q'/'Q' |
| ManualGpio.KeyLoop | test_scripts/manualGPIO.py:35-47 | the loop consumes exactly the keys `KeysRead` counts and applies them in order |
| ManualGpio.FirstQuit | test_scripts/manualGPIO.py:45-47 | the number of keys read is the position of the first quit key, or all keys when there is none |
| ManualGpio.ManualSession | test_scripts/manualGPIO.py:16-49 | the script: setup, then the key loop from all outputs LOW |
| ManualGpio.DigitSetsOnlyItsPin | test_scripts/manualGPIO.py:38-40 | a mapped key raises its output and leaves the other five |
| ManualGpio.LClearsAll | test_scripts/manualGPIO.py:41-44 | 'l' or 'L' leaves every output LOW |
| ManualGpio.OtherKeysNothing | test_scripts/manualGPIO.py:37-47 | any other key, 'q' included, changes no output |
| ManualGpio.HighUntilCleared | test_scripts/manualGPIO.py:36-44 | without 'l', an output ends HIGH exactly when it was HIGH or some key named it |
| ManualGpio.SeveralHigh | test_scripts/manualGPIO.py:38-40 | two outputs can be HIGH together |
| TestCamera3b.CameraLoop | TestCamera3b.py:28-64 | the polling loop on the script's locals, then the exit path and the last line, reach the state and message the pure functions give (as written, or corrected when asked) |
| TestCamera3b.PollPass | TestCamera3b.py:36-54 | one pass of the polling loop on the locals is one step |
| TestCamera3b.PollLoop | TestCamera3b.py:34-54 | the polling loop on the locals ends in the state of the pure `Run` fold |
| TestCamera3b.FileNameInjective | TestCamera3b.py:29 | distinct file numbers give distinct output names |
| TestCamera3b.InitValid | TestCamera3b.py:28-31 | at launch file 1 is being recorded and the encoder was started on it once |
| TestCamera3b.StepKeepsValid | TestCamera3b.py:35-54 | every pass keeps `output_file` naming `filenumber` and the encoder calls a run of completed start/stop pairs on files 1, 2, ..., then the start of the current file while recording |
| TestCamera3b.RunKeepsValid | TestCamera3b.py:34-54 | so does every run of the loop |
| TestCamera3b.KeysActOnlyInTheirState | TestCamera3b.py:36-51 | 't' while recording and 'p' while stopped change nothing |
| TestCamera3b.StartedAppend | TestCamera3b.py:31-48 | an encoder call adds its file to the started files exactly when it is a start |
| TestCamera3b.StartedCompleted | TestCamera3b.py:39-50 | after m completed recordings exactly files 1..m were started, in order |
| TestCamera3b.SavedFileIsLastStarted | TestCamera3b.py:59-64 | the corrected message names the file the encoder last started on, before and after the exit path |
| TestCamera3b.MessageNamesUnusedFile | TestCamera3b.py:49-50 | after a stop, the message as written names the next number, a file never started |
| TestCamera3b.FirstNames | TestCamera3b.py:29 | the first two names are `video_output_1.h264` and `video_output_2.h264` |
| TestCamera3b.OneStopState | TestCamera3b.py:45-51 | one 'p' from launch stops the encoder and moves the name on |
| TestCamera3b.OneStopExample | TestCamera3b.py:45-64 | launch, one 'p', interrupt: the message names file 2 but only file 1 was recorded |
| TestCamera3b.ExitStopsTwice | TestCamera3b.py:48-60 | as written, after a 'p' the exit stops the encoder a second time; the corrected exit leaves only completed recordings |
| SidecamTest.Script.constructor | sidecam_testV1.py:8-19 | the log name comes from the startup clock and the header is written only when the file did not exist |
| SidecamTest.Script.StartRecording | sidecam_testV1.py:36-46 | `start_record` changes the globals as the pure `StartRecord` |
| SidecamTest.Script.StopRecording | sidecam_testV1.py:48-56 | `stop_record` changes the globals as the pure `StopRecord` |
| SidecamTest.RunScript | sidecam_testV1.py:58-73 | start at launch, stop at exit only when the flag says recording |
| SidecamTest.HeaderOnlyIfNew | sidecam_testV1.py:15-19 | the header is the first row exactly when the file is new and is never written again |
| SidecamTest.OnTimeFirst | sidecam_testV1.py:38 | `on_time` is set whatever happens next |
| SidecamTest.StartNeedsBoth | sidecam_testV1.py:40-46 | from idle, `recording` becomes true exactly when the camera call and the log write both succeed, and then the ON row and the video are added |
| SidecamTest.StopNeedsBoth | sidecam_testV1.py:50-56 | while recording, `recording` becomes false exactly when both calls succeed, after the OFF row |
| SidecamTest.ExitOnlyIfRecording | sidecam_testV1.py:70-72 | at exit nothing happens unless the flag says recording |
| SidecamTest.LogFailureLeavesEncoding | sidecam_testV1.py:40-45 | when the camera starts but the ON row fails, the flag stays false and the exit never stops the camera |
| SidecamTest.CleanRun | sidecam_testV1.py:58-73 | when every call succeeds the log gets an ON row then an OFF row after the header, and one video |
| Retrack2.FindBboxRule | Retrack2.py:60-77 | nothing unless some contour's area exceeds 500; otherwise the largest alone decides: its rectangle when `m00` is non-zero, None when zero |
| Retrack2.CentroidUnused | Retrack2.py:74-77 | the centroid of the largest contour does not affect the result: there is no edge margin |
| Retrack2.CentreBoundary | Retrack2.py:45-48 | with radius 100 the circle's edge is inside, one pixel past it is not |
| ObjectTrack.LStrip | objecttrack.py:64 | `lstrip()` removes exactly the leading whitespace |
| ObjectTrack.RStrip | objecttrack.py:64 | `rstrip()` removes exactly the trailing whitespace |
| ObjectTrack.Strip | objecttrack.py:64 | `strip()` leaves text that neither starts nor ends with whitespace |
| ObjectTrack.FirstSep | objecttrack.py:64 | the first separator of `[:\s]`, or the end |
| ObjectTrack.SplitOnce | objecttrack.py:64 | `re.split(..., maxsplit=1)` gives one or two parts |
| ObjectTrack.SplitRule | objecttrack.py:64 | the first part is the text before the first separator; there are two parts exactly when a separator occurs, the second starting after the whole run |
| ObjectTrack.Entries | objecttrack.py:63-68 | one entry per line of the file |
| ObjectTrack.LoadLabels | objecttrack.py:58-69 | the loop builds the dictionary of the entries assigned in file order |
| ObjectTrack.StripTrimmed | objecttrack.py:64-68 | stripping already stripped text changes nothing |
| ObjectTrack.NoSepTrimmed | objecttrack.py:64-68 | text without separators is already stripped |
| ObjectTrack.RestTrimmed | objecttrack.py:64-66 | what follows the separator run of stripped text is stripped |
| ObjectTrack.SplitTrimmed | objecttrack.py:64-68 | both parts of the split are already stripped, so the later `strip()` calls change nothing |
| ObjectTrack.EntryRule | objecttrack.py:64-68 | an indexed line keys its number to the rest; any other line keys its row number to its first token alone |
| ObjectTrack.BlankLine | objecttrack.py:67-68 | a blank line stores "" under its row number |
| ObjectTrack.LastWriteWins | objecttrack.py:63-68 | a key is present exactly when some line stores it, with the value of the last such line |
| ObjectTrack.Kept | objecttrack.py:95-96 | the kept indices are below `count` |
| ObjectTrack.DetectObjects | objecttrack.py:94-103 | the loop returns the results for the kept indices, in order |
| ObjectTrack.KeptExactly | objecttrack.py:95-96 | the kept indices are increasing and an index is kept exactly when it is below `count` and its score reaches the threshold |
| ObjectTrack.ResultsCopy | objecttrack.py:97-102 | each result copies the box, class and score at its index, and its score reaches the threshold |
| ObjectTrack.CameraCodeRule | objecttrack.py:233-300 | the camera code is 0 exactly inside or on the centre circle, otherwise the zone 1..6; the outputs stay as set at startup, LOW |
| ObjectTrack.CentreRadius | objecttrack.py:157-160 | the centre circle has radius 30: its edge gives code 0, one pixel past it does not |

Two behaviours of the code are easy to misread:

- A zone branch of `Retrack15.py` (lines 210-263) does not switch the six outputs at once.
  It writes cam1..cam6 in order, so a higher camera that was HIGH is still HIGH when a lower
  one is raised (`Gpio.ZoneWritesOverlap`). Only the levels after the branch have exactly
  one output HIGH (`Gpio.BranchWritesEnd`).
- `sidecam_testV1.py` stamps its events with the date as well as the time of day, as
  `%Y-%m-%d %H_%M_%S.%f` (line 34), although only the time uses underscores
  (`Text.EventStampReadsBack`).

## Left out

- OpenCV image processing (colour conversion, differencing, blurring, thresholds, contour
  extraction, moments, bounding rectangles, `minMaxLoc`) is not modelled. Each tick carries
  its result: contour summaries (area, `m00`, truncated moment centroid, rectangle), or an
  optional centroid for the whole-mask detectors.
- The KCF/MOSSE trackers and the `create_tracker` fallback are not modelled. The tracker is an
  oracle: each tick carries its `(success, box)` reply.
- Drawing, windows, `imshow`, `putText` and printed messages are left out. `waitKey` and
  keyboard polling become a per-tick key.
- Camera, encoder and file handles are left out. Video writers and CSV logs are values
  (name, header, rows or frame numbers, open or saved), and the encoder is the list of calls
  made to it.
- Wall-clock time, `strftime` and `sleep` timing are inputs. Each tick carries one clock
  reading, although the scripts call the clock several times per pass. Timestamps are a
  date-time record or the text written to the log.
- FPS smoothing and the FPS column are left out (a tick supplies the value logged), and so is
  all other floating point. `atan2` is replaced by an exact integer sector.
  Rounding at the 0-degree and 180-degree rays is not modelled. The other boundary rays
  contain no integer point (`Geometry.NotOnSteepRay`).
- The Euclidean distances of Retrack8, Retrack9 and Retrack10 are compared as squared
  integers. The `map(int, bbox)` truncation of a float box is taken as already done: boxes
  are integers.
- The LED-blinking threads of `Retrack15.py` and `objecttrack.py` are left out. Only the flag
  that starts or stops them is modelled.
- The thread of `Recordonly.py` reads `log_writer`, `frame_count`, `timestamp`, `fps` and
  `cameratriggered` as globals, but they are locals of `main`. It raises NameError at its first
  `writerow` (line 56), before it writes a row or drives LED_PIN HIGH, so the LED never blinks
  (`Recordonly.ThreadDiesAtOnce`). `threadRunning` models only `led_thread_running`. The main
  loop's log is the as-written one, with no thread rows. How the corrected thread's rows would
  interleave with the main loop's is concurrency and is not modelled.
- The `FrameGrabber` thread of `Track13.py` is left out; each tick carries the frame.
- The keyboard-simulation thread of `Sidecam3.py` is left out; the simulated input is a
  per-tick value.
- `GPIO.setup`, `GPIO.cleanup` and `camera.close` at exit are left out. The pin levels are
  modelled, not the pin modes.
- Redetect.TrackLoop requires the script not to be `Tacker10i.py`. That file ends at line 74,
  inside its wait loop, so only its detector, quadrant split and wait loop are modelled.
- `Track13.py` ends at line 182. Its key handling and video writer are not modelled.
  Its nested loops (detect, then track until failure) are one flat loop of ticks that
  carries a "detecting" flag.
- `Track9.py` detects on a grayscale frame and tracks in colour. The frames are opaque, so
  this difference is not modelled.
- `Retrack2.py` ends mid-call in `main`, so only its helpers are modelled.
- The main loop of `objecttrack.py` is left out: it reads `xcenter` before assignment and uses
  undefined box names. Only the zone-to-camera mapping is modelled, from a detection centre.
  The TFLite interpreter calls that fill the tensors are left out; the filter loop takes the
  tensors as sequences.
- ObjectTrack.Strip: models the ASCII whitespace that `str.strip` and `\s` accept (9..13, 28..31
  and the space) and ASCII digits only. Python also accepts non-ASCII Unicode whitespace and
  digits.
- Sidecams.SidecamLoop: Sidecam1 opens a camera `FileOutput` whose video file is not modelled;
  only its log is.
- SidecamTest.Script.StartRecording: whether the camera call and the log write raise is an
  input per call; the exception text is not modelled.
- Sinks.Reopen: a file that Retrack8, Retrack9 or Retrack10 rebinds without closing is
  modelled as saved with what it holds. The open file handle the script leaks is not modelled.
- `Old_versions/Tacker10e.py` sizes its tracker box from `hex_size`, but the hexagon drawing
  that `hex_size` also scales is left out.

## Findings

| source | as written | input that shows it | evidently intended | confidence | as-written member | corrected member |
|---|---|---|---|---|---|---|
| Old_versions/Retrack12.py:243-251 | 'm' closes `log_file` but keeps `log_writer` bound to it, and the next tick's `writerow` (line 228) fails on the closed file | a detection that opens session 1, then 'm', then any tick | pausing also drops the writer, so no row is written until the next session's files open | not executed | Retrack12.PauseCrashExample | Retrack12.CorrectedNeverCrashes |
| Old_versions/Retrack10.py:83-87 | the first-pass gate tests `last_position`, which only the skipped detection can set, so no pass ever detects, logs a row or reads a key | any run: every pass only writes its frame | the gate tests whether a previous frame is stored (`last_frame`) | not executed | Retrack10.AsWrittenNeverLogs | Retrack10.CorrectedLogsEveryPass |
| Recordonly.py:52-62 | `led_flashing` reads `main`'s locals (`log_writer`, `frame_count`, `timestamp`, `fps`, `cameratriggered`) as globals, so its first `writerow` (line 56) raises NameError and the thread ends | any session: the thread starts at line 117 and dies at once; no "LED state" row is logged and LED_PIN never goes HIGH | `main` declares those names global, so the thread logs alternating LED-state rows and blinks the LED | not executed | Recordonly.ThreadDiesAtOnce | Recordonly.CorrectedThreadBlinks |
| TestCamera3b.py:49-64 | after a 'p' the exit path stops the encoder again, and the last message names `output_file`, which was already moved on to the next, unused number | launch, one 'p', interrupt: the message says `video_output_2.h264`; only `video_output_1.h264` was recorded | the message names the file last recorded, and the exit stops only a running encoder | not executed | TestCamera3b.MessageNamesUnusedFile | TestCamera3b.SavedFileIsLastStarted |
