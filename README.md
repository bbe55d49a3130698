# Virtual mouse by hand gestures — a verified model

This project models the decision logic of a family of Python scripts. Each script turns webcam hand landmarks (21 points per hand, from a hand detector) into mouse actions:

* the cursor follows a fingertip, mapped from camera pixels to screen pixels;
* a closed fist toggles scrolling on and off;
* bringing the thumb and index tips close together or far apart scrolls up or down;
* pinching thumb against pinky gives a left click, and thumb against ring finger a right click;
* raising both hands for three seconds exits.

The instrumented variants add other layers:

* a gesture tracker: detections, confirmed true and false positives, missed gestures, and per-gesture response times → accuracy and latency figures;
* cursor tests: a target grid, precision deviations, smoothness jitter, and speed categories;
* an adjustable four-aspect cursor test: precision, smoothness, edge and rapid movement;
* a performance monitor: FPS, CPU and memory readings, and response-time groups;
* a report analysis that builds the comparison table: precision, recall and F1.

What is modelled:

* Pure decision logic becomes functions with lemmas.
* Every object whose fields the script mutates becomes a `class` with `modifies` clauses:
  * the gesture tracker;
  * the cursor-test trackers;
  * the performance monitor;
  * each script's main-loop state.
* Each class method is proved against a specification function of the old state.

Throughout the model, the camera frame, the clock, the lengths `math.hypot`/`sqrt` return, the psutil readings and the operator's console answers are parameters.

Points worth noting about the code:

* The cursor mapping `int(x * screen / w)` truncates toward zero; it does not round (`CursorMapping.TruncatesNotRounds`).
* In the gesture scripts, the cursor move shares `last_gesture_time` with the gestures. It is throttled by the one-second move interval, and once per frame it also stamps that time.
* Confirming a gesture (`y`/`n`) leaves `current_gesture` set. Pressing `y` twice therefore counts two true positives for one detection (`GestureTracking.RepeatedConfirmation`).
* `main.py`'s fist toggle is level-triggered, not edge-triggered. It flips scrolling on every frame in which the fist is held (`MainMouse.FistParity`).
* The two copies of `GestureTracker` are identical, so one model covers both.
* The cursor-test `P` key and the smoothness samples use the raw camera coordinates of the middle fingertip, not screen coordinates.
* The speed-test start time is shared by the three categories. It is set whenever a category key is pressed, even with cursor testing off.
* The speed test records a distance of 0.
* The adjustable edge test compares camera coordinates with the screen size. Once the screen is more than 20 px wider than the frame, the middle-row right target is not "at the edge" (`AdjustableCursorTest.RightEdgeMissedOnWideScreen`). Once it is also more than 20 px taller, only the targets of the top row and the left column count as at an edge. The middle-right, bottom-middle, bottom-right and centre targets never do (`AdjustableCursorTest.LargeScreenReachesOnlyTopAndLeft`).
* The adjustable smoothness "time" is the frame's processing time.
* `rapid_start_time` is not cleared when a rapid test finishes.

## Model

The tracker readers (`GestureTracker.CalculateAccuracy`, `CalculateResponseTimeStats`, `CalculateOverallAccuracy`, `CalculateOverallResponseTime`, `CalculateAvgFrameProcessingTime`), the cursor-test readers (`CursorTestTracker.GetPrecisionStats`, `GetSpeedStats`, `CursorTestingData.GetPrecisionStats`, `GetEdgeStats`, `GetRapidStats`, `GetSmoothnessStats`) and `PerformanceMonitor.GetStatistics` return the functions listed below (`Accuracy`, `ResponseTimeStats`, `OverallAccuracy`, `OverallResponseTime`, `Mean`, `PrecisionStatsOf`, `SpeedStats`, `EdgeStatsOf`, `RapidStatsOf`, `SmoothnessStatsOf`, `StatisticsOf`) of the object's current fields, so they carry no row of their own.

| member | source | states |
|---|---|---|
| Geometry.LengthComparisons | main.py:116-122 | for a Euclidean length `d` of p−q, `d < t` holds exactly when the squared distance is below `t²`, and `d > t` exactly when it is above `t²` |
| Landmarks.RaisedFromMeansAllAbove | virtual_mouse_cursor_testing.py:70-74 | the early-exit scan over the listed fingertips answers true exactly when every one of them is strictly above the wrist |
| Landmarks.IsHandRaisedIff | virtual_mouse_cursor_testing.py:60-74 | a hand is raised exactly when all five fingertips (4, 8, 12, 16, 20) have a smaller y than the wrist |
| Landmarks.BothHandsRaisedIff | virtual_mouse_with_response_time.py:50-61 | both-hands-raised holds exactly when exactly two hands are seen and each is raised |
| Landmarks.IsFistIff | virtual_mouse_with_response_time.py:479 | a fist is detected exactly when every fingertip-to-wrist length is below 40 pixels |
| Landmarks.SignalsOf | main.py:116-122 | the frame's near and far signals both come from the one thumb-to-index distance, so they are never both set |
| Landmarks.ScrollDeadZone | virtual_mouse_with_response_time.py:494-520 | given the thumb-to-index length, the near signal holds exactly when it is under 50 and the far signal exactly when it is over 150; from 50 to 150 inclusive neither holds |
| CursorMapping.TruncDiv | main.py:135-136 | integer conversion of a quotient truncates toward zero: for a non-negative numerator q·d ≤ n < (q+1)·d, and symmetrically for a negative one |
| CursorMapping.ToScreen | main.py:135-136 | for a non-negative coordinate the result is the largest s with s·image ≤ coord·screen; a negative coordinate maps to at most 0; a coordinate inside the frame maps inside `[0, screen]` |
| CursorMapping.MapToScreen | main.py:135-137 | a fingertip inside the camera frame is sent to a point inside the screen |
| CursorMapping.TruncatesNotRounds | main.py:135-136 | the mapping truncates: 1·3/2 gives 1 and −1·3/2 gives −1 |
| ExitGesture.Countdown | main.py:93 | the displayed countdown is never negative, is at most 3 whenever the held duration is not negative, and reaches 0 exactly when the hold has lasted 3 seconds |
| ExitGesture.TimerIsStartOfHold | virtual_mouse_with_response_time.py:415-438 | after any frame sequence whose final stretch of both-hands-raised frames starts at frame k, the exit timer holds the time of frame k |
| ExitGesture.TimerClearedByRelease | virtual_mouse_with_response_time.py:436-438 | a frame without both hands raised clears the timer and never exits |
| ExitGesture.ExitIffHeldLongEnough | virtual_mouse_with_response_time.py:415-438 | a frame exits exactly when both hands have been raised without a break for at least 3 seconds |
| Statistics.Min | virtual_mouse_with_response_time.py:168 | the minimum belongs to the list and bounds every element from below |
| Statistics.Max | virtual_mouse_with_response_time.py:169 | the maximum belongs to the list and bounds every element from above |
| Statistics.Mean | virtual_mouse_with_response_time.py:197-201 | the average is 0 for an empty list and otherwise lies between the list's minimum and maximum |
| Statistics.Percent | virtual_mouse_with_response_time.py:148-153 | a ratio times 100 is 0 exactly when the part or the whole is 0; for a part no larger than the whole it lies in [0, 100] and is 100 exactly when the whole is positive and the part equals it |
| Statistics.Summarize | virtual_mouse_with_response_time.py:155-171 | the summary has the list's length as count, all-zero figures for an empty list, and otherwise min ≤ average ≤ max with min and max bounding every element |
| Statistics.Count | test_4_aspek_kursor_adjustable.py:128 | the number of set flags is at most the number of flags |
| Statistics.CountExtremes | test_4_aspek_kursor_adjustable.py:128-133 | every flag is set exactly when the count equals the length, and none is set exactly when the count is 0 |
| Jitter.CalculateJitterVariance | virtual_mouse_cursor_testing.py:120-137 | the two loops compute the population variance of the consecutive movement lengths; it is never negative and is 0 for fewer than 3 samples |
| Jitter.VarianceNonNegative | virtual_mouse_cursor_testing.py:136-137 | a variance is never negative |
| Jitter.VarianceZeroIffSteady | virtual_mouse_cursor_testing.py:136-137 | the variance of the movement lengths is 0 exactly when every length is the same |
| Jitter.JitterZeroIff | virtual_mouse_cursor_testing.py:120-140 | jitter is 0 exactly when there are fewer than 3 samples or the cursor moved the same distance every frame |
| GestureTracking.KindsListsEveryKindOnce | virtual_mouse_with_response_time.py:66-102 | the tracker knows exactly the five gestures, each listed once |
| GestureTracking.InitialStats | virtual_mouse_with_response_time.py:65-108 | a fresh tracker has a zeroed record with no response times for every gesture |
| GestureTracking.Accuracy | virtual_mouse_with_response_time.py:141-153 | accuracy lies in [0, 100], is 0 exactly when there is no true positive, and is 100 exactly when there are true positives and no false positive or missed gesture |
| GestureTracking.DetectionKeepsAccuracy | virtual_mouse_with_response_time.py:110-116 | a detection alone does not change a gesture's accuracy, and it adds one response time to its statistics |
| GestureTracking.TruePositiveRaisesAccuracy | virtual_mouse_with_response_time.py:118-123 | confirming a true positive never lowers the gesture's accuracy |
| GestureTracking.ErrorsLowerAccuracy | virtual_mouse_with_response_time.py:125-135 | recording a false positive or a missed gesture never raises the gesture's accuracy |
| GestureTracking.TotalsZeroIff | virtual_mouse_with_response_time.py:175-179 | the pooled true-positive count is 0 exactly when no gesture has a true positive, and the pooled judgement count equals it exactly when no gesture has a false positive or missed gesture |
| GestureTracking.OverallAccuracy | virtual_mouse_with_response_time.py:173-184 | overall accuracy lies in [0, 100], is 0 exactly when no gesture has a true positive, and is 100 exactly when some gesture has one and none has an error |
| GestureTracking.PooledTimes | virtual_mouse_with_response_time.py:186-195 | the pooled response times number exactly the total detections and sum to the total response time |
| GestureTracking.OverallResponseTime | virtual_mouse_with_response_time.py:186-195 | the overall response time is 0 when no response time is recorded and otherwise lies between the fastest and slowest recorded time |
| GestureTracking.OverallResponseTimeIsPooled | virtual_mouse_with_response_time.py:186-195 | the overall response time is the total response time over all detections divided by their number, 0 without detections |
| GestureTracking.DetectionChangesOnlyItsKind | virtual_mouse_with_response_time.py:110-116 | a detection adds one detection and its response time to that gesture only, leaves its judgement count and every other gesture unchanged, and makes it the gesture awaiting confirmation |
| GestureTracking.GestureTracker.constructor | virtual_mouse_with_response_time.py:65-108 | a new tracker holds the initial statistics, no current gesture and no detection time, is not waiting, and has the start time and no frame times |
| GestureTracking.GestureTracker.GestureDetected | virtual_mouse_with_response_time.py:110-116 | the new state is the old state after the detection: one more detection and response time for that gesture, which becomes current and awaiting confirmation |
| GestureTracking.GestureTracker.ConfirmTruePositive | virtual_mouse_with_response_time.py:118-123 | with a current gesture, adds one true positive to it and clears waiting, keeping the current gesture; otherwise nothing changes |
| GestureTracking.GestureTracker.ConfirmFalsePositive | virtual_mouse_with_response_time.py:125-130 | with a current gesture, adds one false positive to it and clears waiting, keeping the current gesture; otherwise nothing changes |
| GestureTracking.GestureTracker.AddFalseNegative | virtual_mouse_with_response_time.py:132-135 | adds one missed gesture to the named gesture and changes nothing else |
| GestureTracking.JudgementChangesOnlyCurrentKind | virtual_mouse_with_response_time.py:118-130 | a judgement without a current gesture changes nothing; with one it adds one judgement to that gesture only (a true positive exactly when it is a confirmation), keeps its detections, ends the wait and keeps every other field |
| GestureTracking.MissChangesOnlyItsKind | virtual_mouse_with_response_time.py:132-135 | a reported miss adds one false negative and one judgement to that gesture only and changes no other field |
| GestureTracking.GestureTracker.AddFrameProcessingTime | virtual_mouse_with_response_time.py:137-139 | appends the frame time and changes nothing else |
| GestureTracking.RepeatedConfirmation | virtual_mouse_cursor_testing.py:398-411 | one detection followed by two confirmations leaves one detection and two true positives, because the current gesture is not cleared |
| GestureTracking.ConfirmationBeforeDetection | virtual_mouse_with_response_time.py:118-130 | confirming and rejecting before any detection leaves every judgement count at zero and the tracker not waiting |
| GestureControl.CooldownRespected | virtual_mouse_with_response_time.py:473-533 | a frame records a gesture only when more than the cooldown has passed since the last recorded one, and then restarts the cooldown clock at the frame time; a frame that records nothing leaves the clock alone |
| GestureControl.ToggleOnFistEdge | virtual_mouse_with_response_time.py:479-490 | a toggle is recorded exactly when the fist closes on this frame, the cooldown has passed and no cursor-move record took the frame; scrolling flips exactly when a toggle is recorded |
| GestureControl.HeldFistDoesNotToggle | virtual_mouse_with_response_time.py:481 | a fist already present on the previous frame never flips scrolling |
| GestureControl.ClickOnPinchEdge | virtual_mouse_with_response_time.py:525-535 | a click happens exactly when a click is recorded, and only when gestures are on, the thumb-pinky pinch has just started and the cooldown has passed |
| GestureControl.ScrollWhileInZone | virtual_mouse_with_response_time.py:493-522 | the frame scrolls in the direction of the hand's zone whenever scrolling (after this frame's toggle) and gestures are on, and nowhere otherwise; a recorded scroll up or down means the hand has just entered that zone |
| GestureControl.GesturesOffOnlyMoveAndToggle | virtual_mouse_with_response_time.py:494-526 | with gestures switched off, no scroll and no click happens, and only a cursor move or a toggle can be recorded |
| GestureControl.EdgeStateFollowsHand | virtual_mouse_with_response_time.py:490-535 | after every frame the remembered fist, scroll zone and pinch states are those of that frame, and the gesture switch is unchanged |
| GestureControl.NoMoveRecordUnthrottled | performance_monitoring.py:298-345 | without the once-a-second move record, no frame records a cursor move |
| GestureControl.RecordsAreSpaced | virtual_mouse_with_response_time.py:473-533 | over any frame sequence, successive recorded gestures are more than the cooldown apart, the first is more than the cooldown after the starting clock, and the final clock is the last one's time |
| GestureControl.HeldFistTogglesAtMostOnce | virtual_mouse_with_response_time.py:479-490 | a stretch of frames that all show a fist records at most one toggle, and none when the fist was already closed before it |
| InstrumentedSession.MissedKind | virtual_mouse_with_response_time.py:574-593 | the answer names a missed gesture exactly when it is one of "1"–"5", and then it is the gesture in that position |
| InstrumentedSession.InstrumentedLoop.constructor | virtual_mouse_with_response_time.py:367-377 | the loop starts with a fresh tracker, the initial control state and no exit timer |
| InstrumentedSession.InstrumentedLoop.CheckExit | virtual_mouse_with_response_time.py:415-438 | the exit timer and the exit decision are exactly those of the exit-timer step; the control state and the tracker do not change |
| InstrumentedSession.InstrumentedLoop.MoveStep | virtual_mouse_with_response_time.py:473-476 | a cursor move is recorded exactly when more than one second has passed since the last recorded gesture, and then the tracker gains that detection and the cooldown clock restarts |
| InstrumentedSession.InstrumentedLoop.ToggleStep | virtual_mouse_with_response_time.py:479-490 | a toggle happens exactly when the fist closes on this frame and the cooldown has passed; it flips scrolling, restarts the clock and is recorded in the tracker |
| InstrumentedSession.InstrumentedLoop.ScrollStep | virtual_mouse_with_response_time.py:492-522 | the frame scrolls in the hand's zone when scrolling and gestures are on; a scroll is recorded exactly when the zone is new and the cooldown has passed |
| InstrumentedSession.InstrumentedLoop.ClickStep | virtual_mouse_with_response_time.py:524-535 | a click happens exactly when the thumb-pinky pinch has just started, gestures are on and the cooldown has passed, and it is then recorded |
| InstrumentedSession.InstrumentedLoop.HandStep | virtual_mouse_with_response_time.py:441-535 | the four phases together give exactly the frame step: its control state, the cursor at the mapped middle fingertip, its scroll and click, and its detection in the tracker |
| InstrumentedSession.InstrumentedLoop.ProcessFrame | virtual_mouse_with_response_time.py:401-540 | an exiting frame changes only the exit timer; otherwise a one-hand frame is the frame step, any other frame acts on nothing, and both append the frame's processing time |
| InstrumentedSession.InstrumentedLoop.HandleKey | virtual_mouse_with_response_time.py:563-622 | the gesture state becomes `KeyControl` of the key and the tracker becomes `KeyTracker` of the key: `y`/`n` judge the current gesture and end the wait, `f` records the answered missed gesture, `t` flips scrolling and `w` all gestures, `s` changes nothing, a confirmed `r` starts a fresh tracker object, `q` quits; the exit timer is unchanged and, outside a confirmed reset, the tracker object stays |
| InstrumentedSession.KeyControlFlipsOnlyItsSwitch | virtual_mouse_with_response_time.py:606-612 | a key flips the scrolling switch exactly when it is `t` and the all-gestures switch exactly when it is `w`, and changes no other part of the gesture state |
| InstrumentedSession.KeyTrackerEffects | virtual_mouse_with_response_time.py:563-603 | a confirmed `r` gives a fresh tracker; any other key keeps the current gesture, its time, the start time and the frame times, ends the wait exactly when `y`/`n` judges a current gesture, changes the statistics only on such a judgement or an answered `f`, and keeps the statistics complete with one time per detection |
| CursorTesting.SpeedOf | virtual_mouse_cursor_testing.py:142-149 | the speed in pixels per second times the time in milliseconds is 1000 times the distance; it is 0 when the time is not positive and never negative for a non-negative distance |
| CursorTesting.WindowKeepsLatest | virtual_mouse_cursor_testing.py:109-118 | the smoothness window holds the whole history while it has at most 100 samples, and afterwards exactly the latest 100, in order |
| CursorTesting.AllSucceedIff | virtual_mouse_cursor_testing.py:163-164 | the success rate is 100 exactly when every precision test has a deviation under 50 |
| CursorTesting.PrecisionStatsOf | virtual_mouse_cursor_testing.py:151-172 | the deviation figures summarise exactly the recorded deviations and are all zero before the first test; the success rate lies in [0, 100] and is 100 exactly when every deviation is under 50 |
| CursorTesting.SmoothnessScore | virtual_mouse_cursor_testing.py:178-182 | for a non-negative jitter the score lies in [0, 100] and is 100 exactly when the jitter is 0; it is 0 once the jitter reaches 100 |
| CursorTesting.InCategory | virtual_mouse_cursor_testing.py:196 | a record is kept for a category exactly when it is one of the records and of that category; some record is kept exactly when the category has a record |
| CursorTesting.CategoriesPartition | virtual_mouse_cursor_testing.py:190-196 | the three categories split the records: the sizes of the three filtered lists add up to the number of records |
| CursorTesting.SpeedStats | virtual_mouse_cursor_testing.py:190-206 | a speed category appears exactly when it has records, with their number and the means of their speeds and times |
| CursorTesting.GridRow | virtual_mouse_cursor_testing.py:50-56 | a grid row has one target per column, each the cell point of that row and column |
| CursorTesting.GridLength | virtual_mouse_cursor_testing.py:42-57 | the first r rows of a grid of size n hold r·n targets |
| CursorTesting.GridEntry | virtual_mouse_cursor_testing.py:42-57 | target row·n + col of the grid exists and is the cell point of that row and column |
| CursorTesting.GridRowMajor | virtual_mouse_cursor_testing.py:50-56 | for every row and column, target row·n + col of the grid is the cell point of that row and column |
| CursorTesting.GenerateTargetGrid | virtual_mouse_cursor_testing.py:42-57 | the nested loops produce the row-major grid, and nothing for a size below 1 |
| CursorTesting.GridInsideImage | virtual_mouse_cursor_testing.py:42-57 | every target of the 3×3 grid lies inside the image |
| CursorTesting.CursorTestTracker.constructor | virtual_mouse_cursor_testing.py:91-96 | a new tracker has no precision, smoothness or speed records |
| CursorTesting.CursorTestTracker.AddPrecisionTest | virtual_mouse_cursor_testing.py:98-107 | appends one precision record with the target, the cursor and their Euclidean distance, returns that distance and leaves the other lists unchanged |
| CursorTesting.CursorTestTracker.AddSmoothnessSample | virtual_mouse_cursor_testing.py:109-118 | appends the sample, keeps only the latest 100 and leaves the other lists unchanged |
| CursorTesting.CursorTestTracker.CalculateJitterSquared | virtual_mouse_cursor_testing.py:120-140 | returns the squared jitter of the stored samples, which is never negative |
| CursorTesting.CursorTestTracker.AddSpeedTest | virtual_mouse_cursor_testing.py:142-149 | appends one speed record for the category with its distance, time and derived speed and leaves the other lists unchanged |
| CursorTesting.CursorTestTracker.GetSmoothnessStats | virtual_mouse_cursor_testing.py:174-188 | reports the sample count and jitter, and a score in [0, 100] that is 100 exactly when there are fewer than 3 samples or the movement is steady |
| CursorTestingSession.TargetGridHasTargetCount | virtual_mouse_cursor_testing.py:711-712 | the 3×3 grid has the 9 targets the P handler counts through |
| CursorTesting.NextTarget | virtual_mouse_cursor_testing.py:952-954 | the target index advances by one, stays below the number of targets, and wraps to 0 exactly after the last target; the adjustable test advances by the same rule (test_4_aspek_kursor_adjustable.py:542-547) |
| CursorTestingSession.CursorTestingLoop.constructor | virtual_mouse_cursor_testing.py:655-669 | the loop starts with fresh trackers, testing off, no targets, index 0 and no speed-test start |
| CursorTestingSession.CursorTestingLoop.ProcessFrame | virtual_mouse_cursor_testing.py:698-846 | a frame generates the 3×3 grid when testing is on and no targets exist, runs the instrumented frame (exit timer, frame step, tracker), and in testing mode with one hand and no exit appends the middle fingertip as a smoothness sample; the precision and speed records do not change. On exit the output is the exit output and neither the gesture state nor the tracker changes; with one hand the output is the mapped middle fingertip with the step's scroll and click, and the tracker gains the step's detection and the frame time; with no hand or two hands the gesture state stays and only the frame time is appended |
| CursorTestingSession.CursorTestingLoop.HandleKey | virtual_mouse_cursor_testing.py:882-1010 | `c` flips testing mode, generating the grid and resetting the index when switched on and clearing the targets when off; `p` records a hit on the current target and advances the index; a speed key closes the open timing with its elapsed time or else opens one; a confirmed `r` replaces both trackers; outside a confirmed `r`, only `p` and `c` move the target index, only `p` adds precision hits, only the speed keys add speed records, and no key touches the smoothness window. The instrumented keys change the loop's gesture state and tracker by `KeyControl` and `KeyTracker`, as the instrumented loop does; this variant's own keys leave both, and the exit timer, unchanged |
| AdjustableCursorTest.PrecisionStatsOf | test_4_aspek_kursor_adjustable.py:123-139 | there is no report without records; otherwise it has the record count, the hit count, an accuracy that is the hit percentage (100 exactly when every test hit, 0 exactly when none did) and the mean deviation and latency |
| AdjustableCursorTest.EdgeStatsOf | test_4_aspek_kursor_adjustable.py:162-178 | there is no report without records; otherwise it has the record count, the at-edge count, an accuracy that is its percentage (100 exactly when every cursor was at an edge, 0 exactly when none was) and the mean deviation and latency |
| AdjustableCursorTest.RapidStatsOf | test_4_aspek_kursor_adjustable.py:180-204 | there is no report without records; otherwise it has the count, the number of successful movements, an accuracy that is their percentage (100 exactly when all succeeded, 0 exactly when none did), the mean distance, time and speed, and the two thresholds |
| AdjustableCursorTest.SmoothnessScore | test_4_aspek_kursor_adjustable.py:147 | for a non-negative jitter the score lies in [0, 100] and is 100 exactly when the jitter is 0; it is 0 once the jitter reaches 50 |
| AdjustableCursorTest.SmoothnessStatsOf | test_4_aspek_kursor_adjustable.py:141-160 | there is no report below 3 samples; otherwise it has the sample count, the jitter, a score in [0, 100] that is 100 exactly when every step had the same length, and the mean sample time |
| AdjustableCursorTest.PrecisionPerfectIffAllClose | test_4_aspek_kursor_adjustable.py:46-59 | for records built by `add_precision`, the accuracy is 100 exactly when every cursor was strictly within 30 px of its target |
| AdjustableCursorTest.RapidSuccessIffFarAndFast | test_4_aspek_kursor_adjustable.py:190-192 | for a record built by `add_rapid`, a movement succeeds exactly when its end is more than 200 px from its start and it took less than 1000 ms |
| AdjustableCursorTest.GenerateTargets | test_4_aspek_kursor_adjustable.py:376-418 | precision gives the row-major 3×3 grid with radius 15, edge the eight border points and the centre with radius 20, rapid the quarter-grid points with radius 25, and smoothness no targets |
| AdjustableCursorTest.TargetCounts | test_4_aspek_kursor_adjustable.py:376-418 | every mode but smoothness yields nine targets, each with its mode's radius |
| AdjustableCursorTest.EdgeTargetsOnBorder | test_4_aspek_kursor_adjustable.py:391-403 | on an image at least 62 px each way the nine edge targets are distinct, the first eight lie 30 px from a border and the last is the centre |
| AdjustableCursorTest.RapidTargetsDistinct | test_4_aspek_kursor_adjustable.py:405-416 | on an image at least 4 px each way the nine rapid targets are distinct |
| AdjustableCursorTest.EdgeTargetsClassified | test_4_aspek_kursor_adjustable.py:68-74 | when the screen is the image's size and at least 100 px each way, a cursor on any of the eight border targets is at an edge and one on the centre target is not |
| AdjustableCursorTest.RightEdgeMissedOnWideScreen | test_4_aspek_kursor_adjustable.py:68-74 | a cursor exactly on the middle-row right target is not at an edge once the screen is more than 20 px wider than the image |
| AdjustableCursorTest.LargeScreenReachesOnlyTopAndLeft | test_4_aspek_kursor_adjustable.py:68-74 | on a screen more than 20 px wider and taller than the image, an edge target counts as at an edge exactly when it lies 30 px from the top or the left; targets 0, 1, 2, 3 and 5 do, and 4, 6, 7 and 8 do not |
| AdjustableCursorTest.CursorTestingData.constructor | test_4_aspek_kursor_adjustable.py:39-44 | new test data holds no records |
| AdjustableCursorTest.CursorTestingData.AddPrecision | test_4_aspek_kursor_adjustable.py:46-59 | appends one precision record whose hit flag holds exactly when the cursor is strictly within 30 px of the target, returns the deviation and changes nothing else |
| AdjustableCursorTest.CursorTestingData.AddSmoothness | test_4_aspek_kursor_adjustable.py:61-66 | appends one smoothness sample and changes nothing else |
| AdjustableCursorTest.CursorTestingData.AddEdge | test_4_aspek_kursor_adjustable.py:68-86 | appends one edge record whose flag holds exactly when the cursor is less than 50 px from a border of the screen, returns the deviation and changes nothing else |
| AdjustableCursorTest.CursorTestingData.AddRapid | test_4_aspek_kursor_adjustable.py:88-101 | appends one rapid record with the distance, the time and the speed in px per second, returns the distance and speed and changes nothing else |
| AdjustableCursorTest.CursorTestingData.CalculateJitterSquared | test_4_aspek_kursor_adjustable.py:103-121 | returns the squared jitter of the samples, never negative and 0 below 3 samples |
| AdjustableSession.AdjustableTestLoop.constructor | test_4_aspek_kursor_adjustable.py:33-35 | the loop starts with empty test data, no mode, no targets, index 0, no rapid start and no frames counted |
| AdjustableSession.AdjustableTestLoop.ProcessFrame | test_4_aspek_kursor_adjustable.py:468-480 | in smoothness mode with one hand, a frame appends the middle fingertip with the frame time and steps the frame counter modulo 100; otherwise nothing changes |
| AdjustableSession.AdjustableTestLoop.HandleKey | test_4_aspek_kursor_adjustable.py:503-612 | `1`, `3` and `4` choose a mode, generate its targets and reset the index (and the open rapid start for rapid mode); `2` chooses smoothness mode, clears the targets, keeps the index and resets the frame count; P records as in the record-point rule; R resets the index and the rapid start; Q quits; no key touches the smoothness samples |
| AdjustableSession.AdjustableTestLoop.RecordHit | test_4_aspek_kursor_adjustable.py:529-581 | with one hand, a target mode and targets: precision and edge record the fingertip against the current target and advance; rapid alternately opens a movement at the fingertip and closes it with one timed movement, advancing on the close; otherwise nothing changes |
| PerformanceMonitoring.AfterFrame | performance_monitoring.py:44-64 | a frame less than a second after the last sample is only counted; otherwise the FPS is the frames counted, this one included, over the elapsed time (positive and at most that count), it is appended with the CPU and memory readings, and the counter restarts |
| PerformanceMonitoring.AfterResponse | performance_monitoring.py:70-72 | a response time is appended to the monitor's list and nothing else changes |
| PerformanceMonitoring.InitialConsistent | performance_monitoring.py:34-42 | a fresh monitor is consistent: its FPS, CPU and memory lists have equal length, every FPS sample is positive and the current FPS is the latest sample |
| PerformanceMonitoring.UpdatesKeepConsistent | performance_monitoring.py:44-72 | every frame update and every response update keeps the monitor consistent |
| PerformanceMonitoring.ResponseGroup | performance_monitoring.py:96-101 | the response group is all zeros without times; otherwise it reports the mean, least and greatest time in milliseconds, with least ≤ mean ≤ greatest, and the count |
| PerformanceMonitoring.StatisticsOf | performance_monitoring.py:74-104 | the statistics report the duration since the start in seconds and minutes, the summaries of the FPS, CPU and memory lists, and the response group |
| PerformanceMonitoring.FpsFiguresPositive | performance_monitoring.py:50-52 | for a consistent monitor with samples, the reported least, mean and greatest FPS are positive |
| PerformanceMonitoring.PerformanceMonitor.constructor | performance_monitoring.py:34-42 | a new monitor holds the initial state at the given start time |
| PerformanceMonitoring.PerformanceMonitor.UpdateFrame | performance_monitoring.py:44-64 | the new state is the frame update of the old state with the given CPU and memory readings |
| PerformanceMonitoring.PerformanceMonitor.AddResponseTime | performance_monitoring.py:70-72 | the new state is the old state with the response time appended |
| PerformanceSession.PerfStepEvents | performance_monitoring.py:298-345 | the monitored loop never records a cursor move, keeps gestures on, and scrolls in the hand's zone exactly while scrolling is on |
| PerformanceSession.PerformanceLoop.constructor | performance_monitoring.py:240-247 | the loop starts with a fresh monitor and the initial control state |
| PerformanceSession.PerformanceLoop.ToggleStep | performance_monitoring.py:298-309 | a toggle happens exactly when the fist closes on this frame and the cooldown has passed; then scrolling flips, the clock restarts and the response time is recorded |
| PerformanceSession.PerformanceLoop.ScrollStep | performance_monitoring.py:311-334 | the frame scrolls in the hand's zone whenever scrolling is on; a scroll is recorded with its response time exactly when the zone is new and the cooldown has passed |
| PerformanceSession.PerformanceLoop.ClickStep | performance_monitoring.py:336-345 | a click happens exactly when the thumb-pinky pinch has just started and the cooldown has passed, and its response time is recorded |
| PerformanceSession.PerformanceLoop.HandStep | performance_monitoring.py:272-345 | the three phases together give the frame step's control state, the cursor at the mapped index fingertip, its scroll and click, and a response time recorded exactly when the step records a gesture |
| PerformanceSession.PerformanceLoop.ProcessFrame | performance_monitoring.py:258-348 | with no hand a frame runs only the frame update (the count, and the FPS, CPU and memory samples once a second has passed); otherwise it runs the first hand's step, then the frame update with the readings, at the frame update's own clock reading |
| Analysis.TotalsZeroIff | analisis_hasil_pengujian.py:140-156 | each pooled total (true positives, false positives, missed gestures) is 0 exactly when it is 0 in every row |
| Analysis.TotalsOfConcat | analisis_hasil_pengujian.py:140-156 | the totals of two tables joined are the sums of their totals |
| Analysis.BestIndex | analisis_hasil_pengujian.py:177-182 | the best row has the highest accuracy, and it is the first such row |
| Analysis.WorstIndex | analisis_hasil_pengujian.py:184-187 | the worst row has the lowest accuracy, and it is the first such row |
| Analysis.Precision | analisis_hasil_pengujian.py:190 | precision lies in [0, 100], is 0 exactly when there is no true positive and is 100 exactly when there are true positives and no false positive |
| Analysis.Recall | analisis_hasil_pengujian.py:191 | recall lies in [0, 100], is 0 exactly when there is no true positive and is 100 exactly when there are true positives and no missed gesture |
| Analysis.F1 | analisis_hasil_pengujian.py:192 | for non-negative precision and recall F1 is non-negative, is 0 exactly when either is 0, and lies between the two |
| Analysis.CreateComparisonTable | analisis_hasil_pengujian.py:131-200 | there is no table without rows; otherwise it holds the pooled totals, as best and worst gesture the first row with the greatest and the first row with the least accuracy (every accuracy lies between theirs), and the precision, recall and F1 (in [0, 100]) of the totals |
| Analysis.PerfectF1Iff | analisis_hasil_pengujian.py:189-192 | the F1 of the pooled totals is 100 exactly when some gesture has a true positive and none has a false positive or missed gesture |
| Analysis.F1BelowMaxWhenUnequal | analisis_hasil_pengujian.py:192 | F1 is below 100 whenever precision or recall is |
| MainMouse.ClickOnOwnTimer | main.py:159-172 | either button clicks exactly when its pinch is present and more than half a second has passed since that button's last click, and only then does its timer move to the tick |
| MainMouse.ClickTimersIndependent | main.py:159-172 | changing one button's timer changes neither whether the other button clicks nor the other button's new timer |
| MainMouse.ScrollOnlyWhenActive | main.py:148-157 | with scrolling off after this frame's toggle no scroll happens; with it on the frame scrolls up exactly when the hand is near and down exactly when it is far |
| MainMouse.FistParity | main.py:139-146 | after a stretch of frames that all show a fist, scrolling is as it was exactly when the stretch has even length |
| MainMouse.ClicksAreSpaced | main.py:159-172 | over any frame sequence, successive clicks of a button are more than half a second apart, the first is more than half a second after the starting timer, and the final timer is the last click's tick |
| MainMouse.MainLoop.constructor | main.py:21-28 | the loop starts with scrolling on, both click timers at 0 and no exit timer |
| MainMouse.MainLoop.ProcessFrame | main.py:70-172 | the exit timer, exit decision and countdown follow the exit-timer step; an exiting frame or one without exactly one hand does nothing else; otherwise the frame adopts the main step's state, scroll and clicks and moves the cursor to the mapped middle fingertip |

## Left out

- Camera capture, the hand detector, image flipping and drawing, windows and key polling are not modelled. The model receives each frame's hand landmarks and the pressed key as inputs.
- The mouse controller and the screen query are not modelled. Cursor positions, scrolls and clicks are outputs; the screen size is a parameter.
- The system clocks are parameters (`time.time()` as `now`, and main.py's `getTickCount` as `tick`). main.py reads its tick twice per frame; the model uses one reading for both.
- GestureTracking.GestureTracker.GestureDetected: `gesture_detected` stamps `gesture_detected_time` with its own `time.time()` reading; the model stamps it with the frame's `now`. No code reads that field.
- `math.hypot` and `math.sqrt` are parameters. The model passes lengths constrained to be the true Euclidean length; the jitter is a value whose square is the variance.
- Floating-point rounding is not modelled: arithmetic is on exact reals.
- psutil CPU and memory readings are parameters. So is the delay of `cpu_percent(interval=0.1)`.
- Console `input()` answers are parameters.
- Printing, on-screen text, report saving (JSON and text), `display_stats`/`display_statistics` and the matplotlib charts of the analysis script are output only. The report loading of the analysis script is file I/O. The icon generator is not part of this model.
- The `frame_times` list of `CursorTestingData` (test_4_aspek_kursor_adjustable.py:44) is never filled by the script, so it is not modelled.
- None of the four groups of `get_statistics` (fps, cpu, memory_mb and response_time_ms; performance_monitoring.py:81-101) has a count field. The model's summaries carry one, which the script does not report.
- `generate_targets` with a mode other than the four test modes is left out; the script never passes one.
- `generate_target_grid` with grid size 1 divides by zero in the script. The model's requires excludes it, and the session always uses size 3.
- The `q` key of the performance and main scripts only leaves the loop, so it is not a separate method.
- The smoothness average latency falls back to the first time when no window exists. With three or more samples that branch cannot be taken, so it is not modelled.
- CursorTestingSession.CursorTestingLoop.HandleKey: the Python truthiness test `if cursor_test_start_time:` is modelled as "a start time is set". A start time of exactly 0.0, which Python treats as false, is not distinguished.
