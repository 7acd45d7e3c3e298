/** The per-run analysis of backend/app/analyze.py (analyze_video): the
    sampling loop over the decoded frames, which feeds the repetition counter
    and collects duplicate-frame and face-centroid evidence, and the cheat
    verdict computed from those counts. Video decoding, resizing and the
    pose and face detectors are abstracted: each frame arrives already
    downscaled, with the detectors' output attached. */
module Analyze {
  import opened Wrappers
  import opened Utils
  import opened RepCounting

  const SAMPLE_RATE: nat := 2
  const DOWNSCALE: real := 0.75
  const MSE_THRESHOLD: real := 100.0
  const FACE_CENTROID_VARIANCE_THRESHOLD: real := 0.01
  const REP_RATE_THRESHOLD: real := 3.0
  const DUPLICATE_RATIO_LIMIT: real := 0.15
  const MIN_FACE_DETECTIONS: nat := 5

  /** One decoded frame: its (downscaled) pixels, the pose landmarks if a
      pose was detected, and the landmark list of every detected face. */
  datatype VideoFrame = VideoFrame(image: Frame, pose: Option<Landmarks>, faces: seq<seq<Point>>)

  /** What the video reader yields: whether the file could be opened, the reported
      frame rate and frame count, and the frames actually read. */
  datatype Video = Video(isOpen: bool, fps: real, totalFrames: int, frames: seq<VideoFrame>)

  datatype Reason = ExcessiveFrameDuplication | FaceInconsistency | ExcessiveRepRate

  /** The human-readable note that accompanies each reason, carrying the
      figure it reports (its text formatting is not modelled). */
  datatype Note = DuplicationNote(ratio: real) | FaceNote(variance: real) | RateNote(rate: real)

  datatype Verdict = Verdict(cheatFlag: bool, reasons: seq<Reason>, notes: seq<Note>)

  /** The result dictionary of a completed run. */
  datatype Report = Report(
    reps: nat,
    validReps: nat,
    postureScore: real,
    cheatFlag: bool,
    cheatReasons: seq<Reason>,
    notes: seq<Note>,
    framesProcessed: nat,
    duration: real,
    sampleRate: nat,
    downscale: real,
    duplicateFrames: nat,
    faceDetections: nat,
    repTimestamps: seq<real>)

  /** How a run ends: the "could not open" error dictionary, the
      ZeroDivisionError raised when a frame is sampled from a video whose
      reported frame rate is 0, or a report. */
  datatype Analysis = OpenFailed | ZeroFpsCrash | Completed(report: Report)

  function ReasonCode(r: Reason): string
  {
    match r
    case ExcessiveFrameDuplication => "excessive_frame_duplication"
    case FaceInconsistency => "face_inconsistency"
    case ExcessiveRepRate => "excessive_rep_rate"
  }

  /** Each reason is reported under its own code. */
  lemma ReasonCodesDistinct(a: Reason, b: Reason)
    ensures ReasonCode(a) == ReasonCode(b) ==> a == b
  {
  }

  /** Position of each reason in the fixed order the checks run in. */
  function Rank(r: Reason): nat
  {
    match r
    case ExcessiveFrameDuplication => 0
    case FaceInconsistency => 1
    case ExcessiveRepRate => 2
  }

  /** The exercise analyze_video counts: the given type, or push-ups when
      none (or an empty one) is given. */
  function ExerciseFor(testType: Option<string>): (e: Exercise)
    ensures testType.None? || testType == Some("") ==> e == Pushup
    ensures testType.Some? && testType.value != "" ==> e == ExerciseOf(testType.value)
  {
    assert Lower("pushup") == "pushup";
    ExerciseOf(if testType.Some? && testType.value != "" then testType.value else "pushup")
  }

  // ---------------------------------------------------------------------
  // What the loop computes, as functions of the frames
  // ---------------------------------------------------------------------

  /** The frames the loop processes: every SAMPLE_RATE-th one, counting from
      1 (frame indices 2, 4, 6, ...). */
  function Sampled(frames: seq<VideoFrame>): (s: seq<VideoFrame>)
    ensures |s| == |frames| / SAMPLE_RATE
  {
    if frames == [] then []
    else
      var n := |frames|;
      Sampled(frames[..n - 1]) + (if n % SAMPLE_RATE == 0 then [frames[n - 1]] else [])
  }

  /** The k-th processed frame is frame index SAMPLE_RATE * (k + 1), that is
      position SAMPLE_RATE * k + 1 of the frame sequence. */
  lemma {:induction false} SampledPicksEverySecondFrame(frames: seq<VideoFrame>)
    ensures forall k :: 0 <= k < |Sampled(frames)| ==> Sampled(frames)[k] == frames[SAMPLE_RATE * k + 1]
  {
    if frames != [] {
      var n := |frames|;
      var prefix := frames[..n - 1];
      SampledPicksEverySecondFrame(prefix);
      forall k | 0 <= k < |Sampled(frames)|
        ensures Sampled(frames)[k] == frames[SAMPLE_RATE * k + 1]
      {
        if k < |Sampled(prefix)| {
          assert Sampled(frames)[k] == Sampled(prefix)[k];
        }
      }
    }
  }

  predicate IsDuplicate(m: Mse)
  {
    m.Value? && m.v < MSE_THRESHOLD
  }

  /** Number of adjacent processed frames whose MSE is under the threshold;
      at most one fewer than the number of frames. */
  function DuplicatePairs(frames: seq<VideoFrame>): (n: nat)
    ensures n <= if frames == [] then 0 else |frames| - 1
  {
    if |frames| < 2 then 0
    else
      var k := |frames|;
      DuplicatePairs(frames[..k - 1])
        + (if IsDuplicate(ComputeFrameMse(frames[k - 1].image, frames[k - 2].image)) then 1 else 0)
  }

  function CentroidsOf(faces: seq<seq<Point>>): (cs: seq<Point>)
    ensures |cs| == |faces|
    ensures forall j :: 0 <= j < |faces| ==> cs[j] == Centroid(faces[j])
  {
    seq(|faces|, j requires 0 <= j < |faces| => Centroid(faces[j]))
  }

  /** Number of faces detected over the given frames. */
  function FaceCount(frames: seq<VideoFrame>): nat
  {
    if frames == [] then 0 else FaceCount(frames[..|frames| - 1]) + |frames[|frames| - 1].faces|
  }

  /** One centroid per detected face, over the processed frames in order:
      the last frame's faces come last. */
  function FaceCentroids(frames: seq<VideoFrame>): (cs: seq<Point>)
    ensures |cs| == FaceCount(frames)
    ensures frames != [] ==> cs[|cs| - |frames[|frames| - 1].faces|..] == CentroidsOf(frames[|frames| - 1].faces)
  {
    if frames == [] then [] else FaceCentroids(frames[..|frames| - 1]) + CentroidsOf(frames[|frames| - 1].faces)
  }

  /** What the counter reads from a frame: nothing when no pose was found. */
  function Observation(kind: Exercise, f: VideoFrame, angle: AngleSource): (o: Option<Sample>)
    ensures o.Some? <==> f.pose.Some? && f.pose.value != [] && HasRequired(kind, f.pose.value)
  {
    if f.pose.None? then None else Observe(kind, f.pose.value, angle)
  }

  function Observations(kind: Exercise, frames: seq<VideoFrame>, angle: AngleSource): (obs: seq<Option<Sample>>)
    ensures |obs| == |frames|
    ensures forall i :: 0 <= i < |frames| ==> obs[i] == Observation(kind, frames[i], angle)
  {
    seq(|frames|, i requires 0 <= i < |frames| => Observation(kind, frames[i], angle))
  }

  /** The timestamps (frame index over frame rate) of the processed frames
      whose update completed a repetition: one per repetition counted. */
  function RepTimes(obs: seq<Option<Sample>>, fps: real): (ts: seq<real>)
    requires fps != 0.0 || obs == []
    ensures |ts| == Replay(obs).reps
  {
    if obs == [] then []
    else
      var prefix := obs[..|obs| - 1];
      var before := Replay(prefix);
      RepTimes(prefix, fps)
        + (if Apply(before, obs[|obs| - 1]).reps > before.reps
           then [(SAMPLE_RATE * |obs|) as real / fps] else [])
  }

  predicate StrictlyIncreasing(ts: seq<real>)
  {
    forall i, j :: 0 <= i < j < |ts| ==> ts[i] < ts[j]
  }

  /** With a positive frame rate, repetition timestamps strictly increase and
      none lies past the time of the last processed frame. */
  lemma {:induction false} RepTimesIncreasing(obs: seq<Option<Sample>>, fps: real)
    requires fps > 0.0
    ensures StrictlyIncreasing(RepTimes(obs, fps))
    ensures forall i :: 0 <= i < |RepTimes(obs, fps)| ==>
      0.0 < RepTimes(obs, fps)[i] <= (SAMPLE_RATE * |obs|) as real / fps
  {
    if obs != [] {
      var prefix := obs[..|obs| - 1];
      RepTimesIncreasing(prefix, fps);
      var earlier := RepTimes(prefix, fps);
      var last := (SAMPLE_RATE * |prefix|) as real / fps;
      var now := (SAMPLE_RATE * |obs|) as real / fps;
      DivideIncreasing((SAMPLE_RATE * |prefix|) as real, (SAMPLE_RATE * |obs|) as real, fps);
      var before := Replay(prefix);
      var tail := if Apply(before, obs[|obs| - 1]).reps > before.reps then [now] else [];
      assert RepTimes(obs, fps) == earlier + tail;
      forall i | 0 <= i < |earlier|
        ensures 0.0 < earlier[i] < now
      {
      }
    }
  }

  /** Dividing by a positive rate keeps a strict order between non-negative
      numerators, and a positive numerator stays positive. */
  lemma DivideIncreasing(a: real, b: real, fps: real)
    requires 0.0 <= a < b && fps > 0.0
    ensures a / fps < b / fps && 0.0 < b / fps
  {
    var qa, qb := a / fps, b / fps;
    assert qa * fps == a && qb * fps == b;
    assert (qb - qa) * fps == b - a;
    if qb <= qa {
      PositiveProduct(qa - qb, fps);
    }
    if qb <= 0.0 {
      PositiveProduct(-qb, fps);
    }
  }

  // ---------------------------------------------------------------------
  // The verdict
  // ---------------------------------------------------------------------

  /** Duplicates per processed frame, dividing by max(processed, 1). */
  function DuplicateRatio(duplicates: nat, processed: nat): (r: real)
    ensures 0.0 <= r
    ensures r * (if processed > 1 then processed else 1) as real == duplicates as real
    ensures duplicates <= processed ==> r <= 1.0
  {
    var n := (if processed > 1 then processed else 1) as real;
    DivNonNegative(duplicates as real, n);
    assert duplicates <= processed ==> duplicates as real / n <= 1.0 by {
      if duplicates <= processed {
        DivideBounds(duplicates as real, n, 0.0, 1.0);
      }
    }
    duplicates as real / n
  }

  /** numpy's var over the centroid array, per axis, averaged over the two
      axes. */
  function FaceVariance(centroids: seq<Point>): (v: real)
    ensures 0.0 <= v
  {
    (Variance(Xs(centroids)) + Variance(Ys(centroids))) / 2.0
  }

  /** Video length from the reported frame count and rate; 0 when the rate
      is not positive. */
  function Duration(totalFrames: int, fps: real): (d: real)
    ensures fps > 0.0 ==> d * fps == totalFrames as real
    ensures fps <= 0.0 ==> d == 0.0
    ensures totalFrames >= 0 ==> d >= 0.0
  {
    if fps > 0.0 then
      assert totalFrames >= 0 ==> totalFrames as real / fps >= 0.0 by {
        if totalFrames >= 0 {
          DivNonNegative(totalFrames as real, fps);
        }
      }
      totalFrames as real / fps
    else 0.0
  }

  predicate DuplicationGuard(duplicates: nat, processed: nat)
  {
    DuplicateRatio(duplicates, processed) > DUPLICATE_RATIO_LIMIT
  }

  predicate FaceGuard(faceCount: nat, faceVariance: real)
  {
    faceCount > MIN_FACE_DETECTIONS && faceVariance > FACE_CENTROID_VARIANCE_THRESHOLD
  }

  /** Repetitions per second over the whole video (0 when the duration is
      not positive, where the source never computes it). */
  function RepRate(reps: nat, duration: real): (r: real)
    ensures 0.0 <= r
    ensures duration > 0.0 ==> r * duration == reps as real
    ensures duration <= 0.0 ==> r == 0.0
  {
    if duration > 0.0 then
      DivNonNegative(reps as real, duration);
      reps as real / duration
    else 0.0
  }

  predicate RateGuard(reps: nat, duration: real)
  {
    reps > 1 && duration > 0.0 && RepRate(reps, duration) > REP_RATE_THRESHOLD
  }

  /** The note raised with a reason. */
  function NoteFor(r: Reason, duplicates: nat, processed: nat, faceVariance: real, reps: nat, duration: real): Note
  {
    match r
    case ExcessiveFrameDuplication => DuplicationNote(DuplicateRatio(duplicates, processed))
    case FaceInconsistency => FaceNote(faceVariance)
    case ExcessiveRepRate => RateNote(RepRate(reps, duration))
  }

  /** The reasons raised, in check order: duplication, face, rate. */
  function Reasons(dup: bool, face: bool, rate: bool): seq<Reason>
  {
    (if dup then [ExcessiveFrameDuplication] else [])
      + (if face then [FaceInconsistency] else [])
      + (if rate then [ExcessiveRepRate] else [])
  }

  /** The cheat verdict: the reasons whose guards hold, one note per reason,
      and the flag set exactly when some reason was raised. */
  function Judge(duplicates: nat, processed: nat, faceCount: nat, faceVariance: real, reps: nat, duration: real): (v: Verdict)
    ensures v.cheatFlag <==> v.reasons != []
    ensures |v.notes| == |v.reasons| <= 3
  {
    var dup := DuplicationGuard(duplicates, processed);
    var face := FaceGuard(faceCount, faceVariance);
    var rate := RateGuard(reps, duration);
    var reasons := Reasons(dup, face, rate);
    var notes :=
      (if dup then [DuplicationNote(DuplicateRatio(duplicates, processed))] else [])
      + (if face then [FaceNote(faceVariance)] else [])
      + (if rate then [RateNote(RepRate(reps, duration))] else []);
    Verdict(|reasons| > 0, reasons, notes)
  }

  /** Each reason is raised exactly when its guard holds. */
  lemma JudgeRaisesUnderGuards(duplicates: nat, processed: nat, faceCount: nat, faceVariance: real, reps: nat, duration: real)
    ensures var v := Judge(duplicates, processed, faceCount, faceVariance, reps, duration);
      && (ExcessiveFrameDuplication in v.reasons <==> DuplicationGuard(duplicates, processed))
      && (FaceInconsistency in v.reasons <==> FaceGuard(faceCount, faceVariance))
      && (ExcessiveRepRate in v.reasons <==> RateGuard(reps, duration))
  {
  }

  /** Reasons come out distinct and in the fixed order duplication, face,
      rate. */
  lemma ReasonsInOrder(dup: bool, face: bool, rate: bool)
    ensures forall i, j :: 0 <= i < j < |Reasons(dup, face, rate)| ==>
      Rank(Reasons(dup, face, rate)[i]) < Rank(Reasons(dup, face, rate)[j])
  {
  }

  /** Every note belongs to the reason in the same position and reports the
      figure that tripped it. */
  lemma JudgeNotesMatchReasons(duplicates: nat, processed: nat, faceCount: nat, faceVariance: real, reps: nat, duration: real)
    ensures var v := Judge(duplicates, processed, faceCount, faceVariance, reps, duration);
      forall i :: 0 <= i < |v.reasons| ==>
        v.notes[i] == NoteFor(v.reasons[i], duplicates, processed, faceVariance, reps, duration)
  {
  }

  /** Face centroids that never move cannot raise face_inconsistency. */
  lemma StillFaceRaisesNoFaceReason(duplicates: nat, processed: nat, centroids: seq<Point>, reps: nat, duration: real, p: Point)
    requires forall i :: 0 <= i < |centroids| ==> centroids[i] == p
    ensures FaceInconsistency !in Judge(duplicates, processed, |centroids|, FaceVariance(centroids), reps, duration).reasons
  {
    VarianceOfConstant(Xs(centroids), p.x);
    VarianceOfConstant(Ys(centroids), p.y);
  }

  /** A run of at most one processed frame has no adjacent pair to compare,
      so it is never flagged for duplication. */
  lemma ShortRunNeverDuplicated(frames: seq<VideoFrame>, faceCount: nat, faceVariance: real, reps: nat, duration: real)
    requires |frames| <= 1
    ensures ExcessiveFrameDuplication !in Judge(DuplicatePairs(frames), |frames|, faceCount, faceVariance, reps, duration).reasons
  {
  }

  // ---------------------------------------------------------------------
  // The sampling loop
  // ---------------------------------------------------------------------

  lemma SampledSnoc(frames: seq<VideoFrame>, n: nat)
    requires 0 < n <= |frames|
    ensures n % SAMPLE_RATE != 0 ==> Sampled(frames[..n]) == Sampled(frames[..n - 1])
    ensures n % SAMPLE_RATE == 0 ==> Sampled(frames[..n]) == Sampled(frames[..n - 1]) + [frames[n - 1]]
  {
    assert frames[..n][..n - 1] == frames[..n - 1];
    assert Sampled(frames[..n - 1]) + [] == Sampled(frames[..n - 1]);
  }

  lemma ObservationsSnoc(kind: Exercise, frames: seq<VideoFrame>, f: VideoFrame, angle: AngleSource)
    ensures Observations(kind, frames + [f], angle) == Observations(kind, frames, angle) + [Observation(kind, f, angle)]
  {
  }

  lemma FaceCentroidsSnoc(frames: seq<VideoFrame>, f: VideoFrame)
    ensures FaceCentroids(frames + [f]) == FaceCentroids(frames) + CentroidsOf(f.faces)
  {
  }

  lemma DuplicatePairsSnoc(frames: seq<VideoFrame>, f: VideoFrame)
    ensures DuplicatePairs(frames + [f]) == DuplicatePairs(frames) +
      (if frames != [] && IsDuplicate(ComputeFrameMse(f.image, frames[|frames| - 1].image)) then 1 else 0)
  {
  }

  lemma RepTimesSnoc(obs: seq<Option<Sample>>, o: Option<Sample>, fps: real)
    requires fps != 0.0
    ensures RepTimes(obs + [o], fps) == RepTimes(obs, fps) +
      (if Apply(Replay(obs), o).reps > Replay(obs).reps then [(SAMPLE_RATE * (|obs| + 1)) as real / fps] else [])
  {
  }

  /** The inner loop over the detected faces of one frame: one centroid
      appended per face, in detection order. */
  method AppendCentroids(acc: seq<Point>, faces: seq<seq<Point>>) returns (r: seq<Point>)
    ensures r == acc + CentroidsOf(faces)
  {
    r := acc;
    var j := 0;
    while j < |faces|
      invariant j <= |faces|
      invariant r == acc + CentroidsOf(faces[..j])
    {
      r := r + [Centroid(faces[j])];
      j := j + 1;
      assert CentroidsOf(faces[..j]) == CentroidsOf(faces[..j - 1]) + [Centroid(faces[j - 1])];
    }
    assert faces[..j] == faces;
  }

  /** The image of the last processed frame, if any. */
  function LastImage(sampled: seq<VideoFrame>): Option<Frame>
  {
    if sampled == [] then None else Some(sampled[|sampled| - 1].image)
  }

  /** What the loop has accumulated after processing the given frames: the
      previous frame, the duplicate count, the face centroids, the counter's
      state and the repetition timestamps. */
  ghost predicate Accumulated(
    sampled: seq<VideoFrame>, kind: Exercise, angle: AngleSource, fps: real,
    previous: Option<Frame>, duplicateFrames: nat, faceCentroids: seq<Point>,
    tally: Tally, repTimestamps: seq<real>)
  {
    && (fps != 0.0 || sampled == [])
    && previous == LastImage(sampled)
    && duplicateFrames == DuplicatePairs(sampled)
    && faceCentroids == FaceCentroids(sampled)
    && tally == Replay(Observations(kind, sampled, angle))
    && repTimestamps == RepTimes(Observations(kind, sampled, angle), fps)
  }

  /** The duplicate check of one processed frame against the previous
      processed frame. */
  method CountDuplicate(frame: VideoFrame, previous: Option<Frame>, duplicateFrames: nat,
                        ghost sampled: seq<VideoFrame>)
    returns (duplicateFrames': nat)
    requires previous == LastImage(sampled) && duplicateFrames == DuplicatePairs(sampled)
    ensures duplicateFrames' == DuplicatePairs(sampled + [frame])
  {
    DuplicatePairsSnoc(sampled, frame);
    duplicateFrames' := duplicateFrames;
    if previous.Some? {
      var mse := ComputeFrameMse(frame.image, previous.value);
      if mse.Value? && mse.v < MSE_THRESHOLD {
        duplicateFrames' := duplicateFrames + 1;
      }
    }
  }

  /** Rep counting for one processed frame: feed the pose, if any, to the
      counter and record the time of a completed repetition. */
  method CountRep(counter: RepCounter, frame: VideoFrame, angle: AngleSource, fps: real, currentTime: real,
                  repTimestamps: seq<real>, ghost sampled: seq<VideoFrame>)
    returns (repTimestamps': seq<real>)
    requires counter.Valid() && fps != 0.0
    requires currentTime == (SAMPLE_RATE * (|sampled| + 1)) as real / fps
    requires counter.Snapshot() == Replay(Observations(counter.exercise, sampled, angle))
    requires repTimestamps == RepTimes(Observations(counter.exercise, sampled, angle), fps)
    modifies counter
    ensures counter.Valid()
    ensures counter.Snapshot() == Replay(Observations(counter.exercise, sampled + [frame], angle))
    ensures repTimestamps' == RepTimes(Observations(counter.exercise, sampled + [frame], angle), fps)
  {
    ghost var kind := counter.exercise;
    ghost var obsBefore := Observations(kind, sampled, angle);
    ghost var o := Observation(kind, frame, angle);
    ObservationsSnoc(kind, sampled, frame, angle);
    ReplaySnoc(obsBefore, o);
    RepTimesSnoc(obsBefore, o, fps);
    repTimestamps' := repTimestamps;
    if frame.pose.Some? {
      var completed := counter.Update(frame.pose.value, angle);
      if completed {
        repTimestamps' := repTimestamps + [currentTime];
      }
    }
  }

  /** The body of the loop for one processed frame (frame index
      SAMPLE_RATE times the number processed so far). */
  method ProcessFrame(
    counter: RepCounter, frame: VideoFrame, angle: AngleSource, fps: real, frameIndex: nat,
    previous: Option<Frame>, duplicateFrames: nat, faceCentroids: seq<Point>, repTimestamps: seq<real>,
    ghost sampled: seq<VideoFrame>)
    returns (previous': Option<Frame>, duplicateFrames': nat, faceCentroids': seq<Point>, repTimestamps': seq<real>)
    requires counter.Valid() && fps != 0.0
    requires frameIndex == SAMPLE_RATE * (|sampled| + 1)
    requires Accumulated(sampled, counter.exercise, angle, fps, previous, duplicateFrames, faceCentroids,
                         counter.Snapshot(), repTimestamps)
    modifies counter
    ensures counter.Valid()
    ensures Accumulated(sampled + [frame], counter.exercise, angle, fps, previous', duplicateFrames', faceCentroids',
                        counter.Snapshot(), repTimestamps')
  {
    var currentTime := frameIndex as real / fps;
    duplicateFrames' := CountDuplicate(frame, previous, duplicateFrames, sampled);
    previous' := Some(frame.image);
    repTimestamps' := CountRep(counter, frame, angle, fps, currentTime, repTimestamps, sampled);
    FaceCentroidsSnoc(sampled, frame);
    faceCentroids' := AppendCentroids(faceCentroids, frame.faces);
  }

  /** The frame loop of analyze_video: read every frame, process every
      second one (duplicate check against the previous processed frame, rep
      counting, face centroids). It stops with `crashed` where the source
      divides by a zero frame rate. */
  method ProcessFrames(counter: RepCounter, frames: seq<VideoFrame>, fps: real, angle: AngleSource)
    returns (crashed: bool, framesProcessed: nat, duplicateFrames: nat, faceCentroids: seq<Point>,
             repTimestamps: seq<real>)
    requires counter.Valid() && counter.Snapshot() == Start
    modifies counter
    ensures crashed <==> fps == 0.0 && |frames| >= SAMPLE_RATE
    ensures !crashed ==>
      && counter.Valid()
      && framesProcessed == |frames| / SAMPLE_RATE
      && Accumulated(Sampled(frames), counter.exercise, angle, fps, LastImage(Sampled(frames)),
                     duplicateFrames, faceCentroids, counter.Snapshot(), repTimestamps)
  {
    var previous: Option<Frame> := None;
    duplicateFrames := 0;
    faceCentroids := [];
    repTimestamps := [];
    framesProcessed := 0;
    var frameIndex: nat := 0;
    ghost var sampled: seq<VideoFrame> := [];
    assert frames[..0] == [];

    while frameIndex < |frames|
      invariant frameIndex <= |frames|
      invariant counter.Valid()
      invariant framesProcessed == frameIndex / SAMPLE_RATE
      invariant fps == 0.0 ==> frameIndex < SAMPLE_RATE
      invariant sampled == Sampled(frames[..frameIndex])
      invariant Accumulated(sampled, counter.exercise, angle, fps, previous, duplicateFrames,
                            faceCentroids, counter.Snapshot(), repTimestamps)
    {
      var frame := frames[frameIndex];
      frameIndex := frameIndex + 1;
      SampledSnoc(frames, frameIndex);
      if frameIndex % SAMPLE_RATE != 0 {
        continue;
      }
      framesProcessed := framesProcessed + 1;
      if fps == 0.0 {
        return true, framesProcessed, duplicateFrames, faceCentroids, repTimestamps;
      }
      previous, duplicateFrames, faceCentroids, repTimestamps :=
        ProcessFrame(counter, frame, angle, fps, frameIndex, previous, duplicateFrames, faceCentroids,
                     repTimestamps, sampled);
      sampled := sampled + [frame];
    }
    assert frames[..frameIndex] == frames;
    crashed := false;
  }

  /** analyze_video: run the frame loop, then judge the counts and assemble
      the report. */
  method AnalyzeVideo(video: Video, testType: Option<string>, angle: AngleSource) returns (a: Analysis)
    ensures a == OpenFailed <==> !video.isOpen
    ensures a == ZeroFpsCrash <==> video.isOpen && video.fps == 0.0 && |video.frames| >= SAMPLE_RATE
    ensures a.Completed? ==>
      var r := a.report;
      var sampled := Sampled(video.frames);
      var obs := Observations(ExerciseFor(testType), sampled, angle);
      var tally := Replay(obs);
      var centroids := FaceCentroids(sampled);
      && r.framesProcessed == |video.frames| / SAMPLE_RATE
      && r.duplicateFrames == DuplicatePairs(sampled)
      && r.reps == tally.reps && r.validReps == tally.valid
      && r.postureScore == Mean(tally.scores)
      && r.repTimestamps == RepTimes(obs, video.fps)
      && |r.repTimestamps| == r.reps
      && r.faceDetections == |centroids|
      && r.duration == Duration(video.totalFrames, video.fps)
      && r.sampleRate == SAMPLE_RATE && r.downscale == DOWNSCALE
      && var v := Judge(r.duplicateFrames, r.framesProcessed, |centroids|, FaceVariance(centroids),
                        |r.repTimestamps|, r.duration);
         r.cheatFlag == v.cheatFlag && r.cheatReasons == v.reasons && r.notes == v.notes
  {
    if !video.isOpen {
      return OpenFailed;
    }
    var fps := video.fps;
    var duration := Duration(video.totalFrames, fps);
    var kind := ExerciseFor(testType);
    var counter := new RepCounter(kind);

    var crashed, framesProcessed, duplicateFrames, faceCentroids, repTimestamps :=
      ProcessFrames(counter, video.frames, fps, angle);
    if crashed {
      return ZeroFpsCrash;
    }

    var verdict := Judge(duplicateFrames, framesProcessed, |faceCentroids|, FaceVariance(faceCentroids),
                         |repTimestamps|, duration);
    var report := Report(
      counter.repCount,
      counter.validReps,
      counter.AveragePostureScore(),
      verdict.cheatFlag,
      verdict.reasons,
      verdict.notes,
      framesProcessed,
      duration,
      SAMPLE_RATE,
      DOWNSCALE,
      duplicateFrames,
      |faceCentroids|,
      repTimestamps);
    return Completed(report);
  }
}
