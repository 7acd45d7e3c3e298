# Repetition counting and video integrity analysis, in Dafny

This project models the analysis core of the Kreeda backend
(`backend/app/analyze.py` and the two helpers it uses from
`backend/app/utils.py`). The model is stated and proved in Dafny 4.11.

- **Repetition counter.** `RepCounter` is a two-phase up/down state machine with hysteresis.
  - A push-up goes down when the averaged elbow angle drops below 90 degrees. It comes back up, completing a repetition, when the angle rises above 110.
  - A sit-up comes up, completing a repetition, when the vertical torso component falls below 0.15. It goes down when that component exceeds 0.20.
  - Every update that reads its landmarks records a posture score. A completed repetition is valid when that frame's score exceeds 0.6 (push-up) or 0.5 (sit-up).
- **Frame loop of `analyze_video`.** It reads every frame and processes every second one. For each processed frame it does three things:
  - compares the frame with the previous processed frame by mean squared error (`compute_frame_mse`), counting duplicates under 100;
  - feeds the pose to the counter, recording the time of each completed repetition;
  - collects the centroid of every detected face (`get_centroid`).
- **Cheat verdict.** A run is flagged for three reasons, in this order:
  - more than 15% duplicate frames;
  - more than five face detections whose centroid variance exceeds 0.01;
  - more than one repetition at a rate above 3 per second.

The files:

- `wrappers.dfy`: the Option type.
- `utils.dfy`: means, variances, `ComputeFrameMse` and `Centroid`.
- `rep_counter.dfy`: the counter.
  - The pure functions `Observe`, `Step`, `Apply` and `Replay` say what one update, and a run of updates, do to the counter's state.
  - The class `RepCounter` updates its fields in place, as the source does. Each update method (`Update`, `UpdatePushup`, `UpdateSitup`) is proved to move `Snapshot()` exactly as `Apply` says.
- `analyze.dfy`: the frame loop and the verdict.
  - Each part of the loop's state is specified by a function of the processed frames: `Sampled`, `DuplicatePairs`, `FaceCentroids`, `Replay` of the observations, and `RepTimes`.
  - The loop is proved to end in exactly those values.
  - `Judge` gives the verdict.

`backend/app/utilss.py` is a byte-for-byte copy of `backend/app/utils.py`. Its lines 87-104 are covered by the same members as utils.py.

## Model

| member | source | states |
|---|---|---|
| Utils.ComputeFrameMse | backend/app/utils.py:87-93 | +infinity exactly when the shapes differ; nan exactly when the shapes agree and the frames hold no pixel; otherwise a finite, non-negative mean squared difference |
| Utils.MseZeroIffIdentical | backend/app/utils.py:92 | for two non-empty frames of one shape, the MSE is 0 exactly when every pixel agrees, and strictly positive when any pixel differs |
| Utils.MseSymmetric | backend/app/utils.py:92 | comparing f1 with f2 gives the same MSE as comparing f2 with f1 |
| Utils.Centroid | backend/app/utils.py:96-104 | no landmarks give the origin (0, 0) |
| Utils.CentroidWithinBounds | backend/app/utils.py:101-104 | the centroid of landmarks that lie in a box lies in that box, on each axis |
| Utils.CentroidOfCoincident | backend/app/utils.py:101-104 | landmarks that all sit on one point have that point as centroid |
| Utils.MeanWithin | backend/app/analyze.py:147-151 | a non-empty mean lies between any lower and upper bound of its elements |
| Utils.Variance | backend/app/analyze.py:272-273 | numpy's population variance is never negative |
| Utils.VarianceOfConstant | backend/app/analyze.py:271-276 | values that never move have variance 0 |
| RepCounting.ExerciseOf | backend/app/analyze.py:33-46 | the counter is a push-up counter exactly when the lower-cased name is "pushup", a sit-up counter exactly when it is "situp", and counts nothing otherwise |
| RepCounting.ExerciseOfIgnoresCase | backend/app/analyze.py:33 | the exercise name is matched after lower-casing: "PushUp" is a push-up and "SITUP" a sit-up, and lower-casing again changes nothing |
| RepCounting.Observe | backend/app/analyze.py:48-121 | an update reads a sample exactly when the landmark list is non-empty and holds every landmark the exercise needs; the sample is an elbow angle exactly for push-ups |
| RepCounting.PushupPosture | backend/app/analyze.py:72-81 | the score lies in [0, 1]; it passes 0.6 exactly for angles in (48, 112) while down and in (96, 224) while up |
| RepCounting.SitupPosture | backend/app/analyze.py:123-125 | the score lies in [0, 1]; it passes 0.5 exactly when the horizontal torso offset is under half of max(vertical, 0.1) |
| RepCounting.Step | backend/app/analyze.py:72-140 | the score lies in [0, 1]; a repetition completes exactly on a down-to-up move; only a completed repetition can be valid |
| RepCounting.Hysteresis | backend/app/analyze.py:84-141 | an elbow angle in [90, 110], or a torso vertical component in [0.15, 0.20], never changes the phase and never completes a repetition |
| RepCounting.PushupValidOnlyJustAboveThreshold | backend/app/analyze.py:76-94 | the closing frame is scored against the down ideal of 80 degrees, so a push-up repetition is valid exactly when its closing angle lies in (110, 112) |
| RepCounting.SitupValidNeedsUprightSpine | backend/app/analyze.py:123-136 | a sit-up repetition is valid exactly when, from down, the vertical component is under 0.15 and the horizontal offset under half of max(vertical, 0.1); that offset is then under 0.075 |
| RepCounting.Apply | backend/app/analyze.py:76-142 | no sample changes nothing; a sample appends its score and counts one repetition exactly on down-to-up; a valid repetition is counted only with a repetition; valid <= reps and scores in [0, 1] are preserved |
| RepCounting.Replay | backend/app/analyze.py:32-145 | after any run, valid_reps <= rep_count <= number of updates, and every recorded score lies in [0, 1] |
| RepCounting.ReplayInBandCountsNothing | backend/app/analyze.py:84-141 | samples that all stay inside the hysteresis band leave a fresh counter up, with no repetition counted |
| RepCounting.PushupCrossings | backend/app/analyze.py:86-96 | a push-up counter goes down exactly on an angle below 90 and comes back up exactly on one above 110, and coming up always completes a repetition |
| RepCounting.SitupCrossings | backend/app/analyze.py:130-140 | a sit-up counter goes down exactly when the vertical torso component exceeds 0.20 and comes back up exactly when it is below 0.15, and coming up always completes a repetition, whatever the posture |
| RepCounting.DownThenUp | backend/app/analyze.py:48-141 | from up, a sample going down, a frame without landmarks and a sample coming up complete exactly one repetition and end up |
| RepCounting.CyclesCountN | backend/app/analyze.py:48-141 | n rounds of going down, a gap and coming back up count exactly n repetitions and end up, for either exercise |
| RepCounting.PushupCyclesCountN | backend/app/analyze.py:84-98 | n cycles of an angle below 90, a gap and an angle above 110 count exactly n repetitions and end up |
| RepCounting.SitupCyclesCountN | backend/app/analyze.py:128-141 | n cycles of a vertical component above 0.20, a gap and one below 0.15 count exactly n repetitions and end up, whatever the horizontal offsets |
| RepCounting.Window | backend/app/analyze.py:68-70 | the window of recent angles holds at most 10 values |
| RepCounting.WindowAppend | backend/app/analyze.py:68-70 | appending an angle and dropping the oldest on overflow gives the last 10 angles of the whole history |
| RepCounting.RepCounter.constructor | backend/app/analyze.py:32-38 | a new counter is up, with no repetitions, angles or scores |
| RepCounting.RepCounter.Update | backend/app/analyze.py:40-46 | the new state is Apply of the old state and the observed sample (unchanged for an unrecognised exercise); the angle history grows by the push-up angle read; the result is true exactly when rep_count grew by one |
| RepCounting.RepCounter.UpdatePushup | backend/app/analyze.py:48-101 | the same, for a push-up counter |
| RepCounting.RepCounter.PushAngle | backend/app/analyze.py:68-70 | the stored window stays the last 10 angles of the history; nothing else changes |
| RepCounting.RepCounter.UpdateSitup | backend/app/analyze.py:103-145 | the same as Update, for a sit-up counter, whose angle history never changes |
| RepCounting.RepCounter.AveragePostureScore | backend/app/analyze.py:147-151 | the average lies in [0, 1] and is 0 when no score was recorded |
| Analyze.ReasonCodesDistinct | backend/app/analyze.py:267-282 | the three reasons are reported under three distinct codes |
| Analyze.ExerciseFor | backend/app/analyze.py:194-197 | no test type, or an empty one, counts push-ups; any other test type is resolved by its lower-cased name |
| Analyze.Duration | backend/app/analyze.py:191 | with a positive frame rate, duration times fps is the frame count; otherwise the duration is 0; it is never negative for a non-negative frame count |
| Analyze.Sampled | backend/app/analyze.py:214-218 | the loop processes half the frames read, rounded down |
| Analyze.SampledPicksEverySecondFrame | backend/app/analyze.py:214-218 | the k-th processed frame is frame number 2(k + 1) |
| Analyze.DuplicatePairs | backend/app/analyze.py:233-238 | there are never more duplicates than adjacent pairs of processed frames |
| Analyze.FaceCentroids | backend/app/analyze.py:250-255 | one centroid per face detected over the processed frames, the last frame's faces last and in order |
| Analyze.Observation | backend/app/analyze.py:243-247 | a processed frame feeds the counter a sample exactly when a pose was detected whose landmark list is non-empty and holds every landmark the exercise needs |
| Analyze.CentroidsOf | backend/app/analyze.py:252-255 | one centroid per detected face, in order |
| Analyze.RepTimes | backend/app/analyze.py:221-248 | exactly one timestamp per counted repetition |
| Analyze.RepTimesIncreasing | backend/app/analyze.py:221-248 | with a positive frame rate, the timestamps strictly increase, are positive, and none lies past the time of the last processed frame |
| Analyze.DuplicateRatio | backend/app/analyze.py:265 | the ratio is non-negative, times max(processed, 1) it gives the duplicate count, and it is at most 1 when duplicates do not outnumber processed frames |
| Analyze.FaceVariance | backend/app/analyze.py:272-273 | the mean of the two axis variances is never negative |
| Analyze.RepRate | backend/app/analyze.py:280 | the rate is non-negative; with a positive duration, rate times duration is the repetition count; otherwise it is 0 |
| Analyze.Judge | backend/app/analyze.py:262-292 | the cheat flag is raised exactly when some reason is; there is one note per reason and at most three |
| Analyze.JudgeRaisesUnderGuards | backend/app/analyze.py:264-283 | each reason is raised exactly when its guard holds: duplicate ratio over 0.15; more than 5 faces with variance over 0.01; more than one repetition, positive duration and a rate over 3 per second |
| Analyze.ReasonsInOrder | backend/app/analyze.py:262-283 | the reasons are distinct and in the order duplication, face, rate |
| Analyze.JudgeNotesMatchReasons | backend/app/analyze.py:264-283 | each note belongs to the reason in the same position and reports the figure that tripped it |
| Analyze.StillFaceRaisesNoFaceReason | backend/app/analyze.py:271-276 | face centroids that never move cannot raise face_inconsistency |
| Analyze.ShortRunNeverDuplicated | backend/app/analyze.py:233-267 | with at most one processed frame, excessive_frame_duplication is never raised |
| Analyze.AppendCentroids | backend/app/analyze.py:252-255 | appends the centroid of every detected face, in order |
| Analyze.CountDuplicate | backend/app/analyze.py:233-238 | the duplicate count stays the number of adjacent processed pairs under the MSE threshold |
| Analyze.CountRep | backend/app/analyze.py:240-248 | the counter stays the replay of all processed observations, and the timestamps stay their RepTimes |
| Analyze.ProcessFrame | backend/app/analyze.py:220-255 | all accumulated evidence is extended by one processed frame |
| Analyze.ProcessFrames | backend/app/analyze.py:200-256 | the loop raises the zero-frame-rate error exactly when fps is 0 and a frame gets sampled; otherwise it processes half the frames read, rounded down, and its duplicates, centroids, counter state and timestamps are the functions of the sampled frames |
| Analyze.AnalyzeVideo | backend/app/analyze.py:154-304 | an unopened video gives the error result; fps 0 with a sampled frame gives the ZeroDivisionError; otherwise every field of the report is the corresponding function of the frames, and the flag, reasons and notes are Judge of those counts |

## Left out

- Video decoding, downscaling (`cv2.resize`), colour conversion and the MediaPipe pose and face detectors are not modelled. Each frame arrives as a pixel array with the detectors' output attached. Only the `DOWNSCALE` constant is reported.
- `calculate_angle` (its arccos, clipping and NaN behaviour) is not modelled. The counter receives it as a function parameter.
- Floating point is not modelled: all arithmetic is on exact reals and integers.
  - This covers the float32 pixel cast in `compute_frame_mse`, NaN and infinity propagation other than the MSE's own +inf/nan cases, and `np.var` rounding.
- The report's `round(..., 3)` of the posture score and `round(..., 2)` of the duration are not modelled. The report carries the unrounded values, and the verdict uses the unrounded duration, as the source does.
- The notes carry the reported figure, not the formatted text.
- RepCounting.Lower models `str.lower` on ASCII letters only.
- RepCounting.RepCounter.constructor takes the exercise already resolved from its name. The name is resolved by `ExerciseOf`, which lower-cases it; `ExerciseOfIgnoresCase` states that step.
- A frame rate that is negative or NaN is not distinguished beyond what the exact-real model gives. Duration is 0 unless fps > 0. fps == 0 with at least one sampled frame ends the run as `ZeroFpsCrash`, the ZeroDivisionError the source raises at `frame_index / fps`.
- Analyze.Judge: its contract states only the flag and the note count. Which reasons it raises, their order and the notes are stated in `JudgeRaisesUnderGuards`, `ReasonsInOrder` and `JudgeNotesMatchReasons`.
- The remaining functions of `backend/app/utils.py` are not part of this model: video loading and metadata helpers, file I/O and `calculate_angle` itself.
  - Also left out are `backend/app/main.py` (the HTTP layer) and the dashboard.
  - `main.py` imports an `analyzee` module, which is not part of this model.
- The source keeps no integrity score and no penalty weighting, so the model has none.
  - A repetition's validity comes from the single closing frame's posture score, with a 0.6 (push-up) or 0.5 (sit-up) bar.
  - The repetition rate is repetitions over the whole video duration.
  - Landmark visibility is not consulted.
