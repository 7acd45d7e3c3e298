/** The repetition counter of backend/app/analyze.py: a two-phase up/down
    state machine with hysteresis, one configuration per exercise kind.
    Pure functions below (Observe, Step, Apply, Replay) say what one update
    and a run of updates do; the RepCounter class mutates its fields the way
    the source does and is proved against them. */
module RepCounting {
  import opened Wrappers
  import opened Utils

  datatype Exercise = Pushup | Situp | Unrecognised
  datatype Phase = Up | Down

  const PUSHUP_ANGLE_THRESHOLD: real := 90.0
  const SITUP_TORSO_THRESHOLD: real := 0.15
  /** Closing thresholds: the source writes them as the opening threshold
      plus a fixed gap. */
  const PUSHUP_UP_ANGLE: real := PUSHUP_ANGLE_THRESHOLD + 20.0
  const SITUP_DOWN_TORSO: real := SITUP_TORSO_THRESHOLD + 0.05
  const IDEAL_ANGLE_DOWN: real := 80.0
  const IDEAL_ANGLE_UP: real := 160.0
  const PUSHUP_MIN_POSTURE: real := 0.6
  const SITUP_MIN_POSTURE: real := 0.5
  const ANGLE_WINDOW: nat := 10

  /** MediaPipe pose landmark indices. */
  const LEFT_SHOULDER: nat := 11
  const RIGHT_SHOULDER: nat := 12
  const LEFT_ELBOW: nat := 13
  const RIGHT_ELBOW: nat := 14
  const LEFT_WRIST: nat := 15
  const RIGHT_WRIST: nat := 16
  const LEFT_HIP: nat := 23
  const RIGHT_HIP: nat := 24

  /** The pose landmarks of one frame. An index past the end stands for the
      IndexError and a None entry for the AttributeError that the source
      catches and turns into "no update". */
  type Landmarks = seq<Option<Point>>

  /** calculate_angle: the angle in degrees at the middle point. Its arccos
      arithmetic is not modelled; callers supply it. */
  type AngleSource = (Point, Point, Point) -> real

  // ---------------------------------------------------------------------
  // Exercise names
  // ---------------------------------------------------------------------

  function LowerChar(c: char): char
  {
    if 'A' <= c <= 'Z' then (c as int + 32) as char else c
  }

  /** str.lower on ASCII letters; every other character is kept. */
  function Lower(s: string): (r: string)
    ensures |r| == |s|
    ensures forall i :: 0 <= i < |s| ==> r[i] == LowerChar(s[i])
  {
    seq(|s|, i requires 0 <= i < |s| => LowerChar(s[i]))
  }

  /** The exercise a RepCounter is built for, from its lower-cased name. */
  function ExerciseOf(name: string): (e: Exercise)
    ensures e == Pushup <==> Lower(name) == "pushup"
    ensures e == Situp <==> Lower(name) == "situp"
    ensures e == Unrecognised <==> Lower(name) != "pushup" && Lower(name) != "situp"
  {
    var n := Lower(name);
    if n == "pushup" then Pushup else if n == "situp" then Situp else Unrecognised
  }

  /** Exercise names are matched without regard to letter case. */
  lemma ExerciseOfIgnoresCase(name: string)
    ensures ExerciseOf(Lower(name)) == ExerciseOf(name)
    ensures ExerciseOf("pushup") == Pushup && ExerciseOf("PushUp") == Pushup
    ensures ExerciseOf("situp") == Situp && ExerciseOf("SITUP") == Situp
  {
    assert Lower(Lower(name)) == Lower(name);
    assert Lower("pushup") == "pushup";
    assert Lower("PushUp") == "pushup";
    assert Lower("situp") == "situp";
    assert Lower("SITUP") == "situp";
  }

  // ---------------------------------------------------------------------
  // Reading the derived signal off the landmarks
  // ---------------------------------------------------------------------

  function LandmarkAt(landmarks: Landmarks, i: nat): Option<Point>
  {
    if i < |landmarks| then landmarks[i] else None
  }

  predicate Present(landmarks: Landmarks, i: nat)
  {
    LandmarkAt(landmarks, i).Some?
  }

  /** Every landmark the exercise reads is there: both shoulders, elbows
      and wrists for a push-up, both shoulders and hips for a sit-up. */
  predicate HasRequired(kind: Exercise, landmarks: Landmarks)
  {
    match kind
    case Pushup =>
      && Present(landmarks, LEFT_SHOULDER) && Present(landmarks, LEFT_ELBOW) && Present(landmarks, LEFT_WRIST)
      && Present(landmarks, RIGHT_SHOULDER) && Present(landmarks, RIGHT_ELBOW) && Present(landmarks, RIGHT_WRIST)
    case Situp =>
      && Present(landmarks, LEFT_SHOULDER) && Present(landmarks, RIGHT_SHOULDER)
      && Present(landmarks, LEFT_HIP) && Present(landmarks, RIGHT_HIP)
    case Unrecognised => false
  }

  /** The signal that drives the state machine: the averaged elbow angle of
      a push-up, or the shoulder-midpoint minus hip-midpoint torso vector of
      a sit-up. */
  datatype Sample = ElbowAngle(angle: real) | Torso(dx: real, dy: real)

  /** What one update reads from the landmarks: nothing for an unrecognised
      exercise, an empty landmark list or a missing required landmark. */
  function Observe(kind: Exercise, landmarks: Landmarks, angle: AngleSource): (s: Option<Sample>)
    ensures s.Some? <==> landmarks != [] && HasRequired(kind, landmarks)
    ensures s.Some? ==> (s.value.ElbowAngle? <==> kind == Pushup)
  {
    if landmarks == [] || !HasRequired(kind, landmarks) then None
    else if kind == Pushup then
      var leftAngle := angle(LandmarkAt(landmarks, LEFT_SHOULDER).value,
                             LandmarkAt(landmarks, LEFT_ELBOW).value,
                             LandmarkAt(landmarks, LEFT_WRIST).value);
      var rightAngle := angle(LandmarkAt(landmarks, RIGHT_SHOULDER).value,
                              LandmarkAt(landmarks, RIGHT_ELBOW).value,
                              LandmarkAt(landmarks, RIGHT_WRIST).value);
      Some(ElbowAngle((leftAngle + rightAngle) / 2.0))
    else
      var ls := LandmarkAt(landmarks, LEFT_SHOULDER).value;
      var rs := LandmarkAt(landmarks, RIGHT_SHOULDER).value;
      var lh := LandmarkAt(landmarks, LEFT_HIP).value;
      var rh := LandmarkAt(landmarks, RIGHT_HIP).value;
      var shoulderMid := Point((ls.x + rs.x) / 2.0, (ls.y + rs.y) / 2.0);
      var hipMid := Point((lh.x + rh.x) / 2.0, (lh.y + rh.y) / 2.0);
      Some(Torso(shoulderMid.x - hipMid.x, shoulderMid.y - hipMid.y))
  }

  // ---------------------------------------------------------------------
  // Posture scores and one step of the state machine
  // ---------------------------------------------------------------------

  function Abs(r: real): real
  {
    if r < 0.0 then -r else r
  }

  /** Python's max(a, b): the first argument unless the second is greater. */
  function MaxReal(a: real, b: real): real
  {
    if b > a then b else a
  }

  function MinReal(a: real, b: real): real
  {
    if b < a then b else a
  }

  /** Push-up posture score: closeness of the angle to the ideal of the
      CURRENT phase (80 degrees while down, 160 while up). It passes the 0.6
      bar in a window around that ideal. */
  function PushupPosture(phase: Phase, avg: real): (score: real)
    ensures 0.0 <= score <= 1.0
    ensures phase == Down ==> (score > PUSHUP_MIN_POSTURE <==> 48.0 < avg < 112.0)
    ensures phase == Up ==> (score > PUSHUP_MIN_POSTURE <==> 96.0 < avg < 224.0)
  {
    var deviation := if phase == Down then Abs(avg - IDEAL_ANGLE_DOWN) / IDEAL_ANGLE_DOWN
                     else Abs(avg - IDEAL_ANGLE_UP) / IDEAL_ANGLE_UP;
    MaxReal(0.0, 1.0 - deviation)
  }

  lemma RatioBelowHalf(a: real, b: real)
    requires 0.0 <= a && 0.0 < b
    ensures 0.0 <= a / b
    ensures a / b < 0.5 <==> a < 0.5 * b
  {
    var q := a / b;
    assert q * b == a;
    if q < 0.0 {
      PositiveProduct(-q, b);
    }
    if q < 0.5 {
      PositiveProduct(0.5 - q, b);
    } else {
      assert (q - 0.5) * b >= 0.0 by {
        if q > 0.5 { PositiveProduct(q - 0.5, b); }
      }
    }
  }

  /** Sit-up posture score: spine straightness, one minus the horizontal
      torso offset relative to the vertical one (the latter floored at 0.1),
      clamped to [0, 1]. It passes the 0.5 bar exactly when the horizontal
      offset is under half that floored vertical extent. */
  function SitupPosture(dx: real, dy: real): (score: real)
    ensures 0.0 <= score <= 1.0
    ensures score > SITUP_MIN_POSTURE <==> Abs(dx) < 0.5 * MaxReal(Abs(dy), 0.1)
  {
    var spread := MaxReal(Abs(dy), 0.1);
    var straightness := 1.0 - Abs(dx) / spread;
    RatioBelowHalf(Abs(dx), spread);
    MaxReal(0.0, MinReal(1.0, straightness))
  }

  /** The effect of one defined sample: the next phase, the posture score
      recorded, whether a repetition completed and whether it was valid. */
  datatype Transition = Transition(next: Phase, score: real, completed: bool, valid: bool)

  /** One step of the state machine. A repetition completes exactly on a
      down-to-up move; an up-to-down move never counts one; only a completed
      repetition can be valid. */
  function Step(phase: Phase, sample: Sample): (t: Transition)
    ensures 0.0 <= t.score <= 1.0
    ensures t.completed <==> phase == Down && t.next == Up
    ensures t.valid ==> t.completed
  {
    match sample
    case ElbowAngle(a) =>
      var score := PushupPosture(phase, a);
      if phase == Up && a < PUSHUP_ANGLE_THRESHOLD then Transition(Down, score, false, false)
      else if phase == Down && a > PUSHUP_UP_ANGLE then Transition(Up, score, true, score > PUSHUP_MIN_POSTURE)
      else Transition(phase, score, false, false)
    case Torso(dx, dy) =>
      var vertical := Abs(dy);
      var score := SitupPosture(dx, dy);
      if phase == Down && vertical < SITUP_TORSO_THRESHOLD then Transition(Up, score, true, score > SITUP_MIN_POSTURE)
      else if phase == Up && vertical > SITUP_DOWN_TORSO then Transition(Down, score, false, false)
      else Transition(phase, score, false, false)
  }

  /** A sample inside the hysteresis band of its exercise (or no sample). */
  predicate InBand(obs: Option<Sample>)
  {
    match obs
    case None => true
    case Some(ElbowAngle(a)) => PUSHUP_ANGLE_THRESHOLD <= a <= PUSHUP_UP_ANGLE
    case Some(Torso(_, dy)) => SITUP_TORSO_THRESHOLD <= Abs(dy) <= SITUP_DOWN_TORSO
  }

  /** Hysteresis: an elbow angle in [90, 110], or a torso vertical component
      in [0.15, 0.20], never changes the phase and never completes a rep. */
  lemma Hysteresis(phase: Phase, s: Sample)
    requires InBand(Some(s))
    ensures Step(phase, s).next == phase && !Step(phase, s).completed
  {
  }

  /** The closing push-up frame is scored against the 80-degree "down" ideal
      before the phase flips, so a push-up repetition is valid exactly when
      its closing angle lies strictly between 110 and 112 degrees. */
  lemma PushupValidOnlyJustAboveThreshold(phase: Phase, a: real)
    ensures Step(phase, ElbowAngle(a)).valid <==> phase == Down && 110.0 < a < 112.0
  {
  }

  /** A sit-up repetition is valid exactly when its closing frame has a
      vertical torso component under 0.15 and a horizontal offset under half
      of max(vertical, 0.1); in particular the offset is under 0.075. */
  lemma SitupValidNeedsUprightSpine(phase: Phase, dx: real, dy: real)
    ensures Step(phase, Torso(dx, dy)).valid <==>
      phase == Down && Abs(dy) < SITUP_TORSO_THRESHOLD && Abs(dx) < 0.5 * MaxReal(Abs(dy), 0.1)
    ensures Step(phase, Torso(dx, dy)).valid ==> Abs(dx) < 0.075
  {
  }

  // ---------------------------------------------------------------------
  // The counter's abstract state and runs of updates
  // ---------------------------------------------------------------------

  /** The counter's observable state: phase, rep_count, valid_reps and the
      recorded posture scores. */
  datatype Tally = Tally(phase: Phase, reps: nat, valid: nat, scores: seq<real>)

  /** A fresh counter: phase up, no repetitions, no scores. */
  const Start: Tally := Tally(Up, 0, 0, [])

  /** valid_reps never exceeds rep_count and every score lies in [0, 1]. */
  predicate Sound(t: Tally)
  {
    t.valid <= t.reps && forall i :: 0 <= i < |t.scores| ==> 0.0 <= t.scores[i] <= 1.0
  }

  /** One update: a missing sample changes nothing; a defined one records its
      score and moves the phase, counting a rep exactly on down-to-up and a
      valid rep only together with a rep. */
  function Apply(t: Tally, obs: Option<Sample>): (r: Tally)
    ensures obs.None? ==> r == t
    ensures obs.Some? ==> r.scores == t.scores + [Step(t.phase, obs.value).score]
    ensures r.reps == t.reps || r.reps == t.reps + 1
    ensures r.reps == t.reps + 1 <==> obs.Some? && t.phase == Down && r.phase == Up
    ensures r.valid == t.valid || (r.valid == t.valid + 1 && r.reps == t.reps + 1)
    ensures Sound(t) ==> Sound(r)
  {
    match obs
    case None => t
    case Some(s) =>
      var tr := Step(t.phase, s);
      Tally(tr.next,
            t.reps + (if tr.completed then 1 else 0),
            t.valid + (if tr.valid then 1 else 0),
            t.scores + [tr.score])
  }

  /** The state after feeding a fresh counter the given samples in order. */
  function Replay(obs: seq<Option<Sample>>): (t: Tally)
    ensures Sound(t)
    ensures t.reps <= |obs|
  {
    if obs == [] then Start else Apply(Replay(obs[..|obs| - 1]), obs[|obs| - 1])
  }

  lemma ReplaySnoc(obs: seq<Option<Sample>>, o: Option<Sample>)
    ensures Replay(obs + [o]) == Apply(Replay(obs), o)
  {
  }

  /** A run of samples that all stay inside the hysteresis band leaves a
      fresh counter up, with no repetition counted. */
  lemma {:induction false} ReplayInBandCountsNothing(obs: seq<Option<Sample>>)
    requires forall i :: 0 <= i < |obs| ==> InBand(obs[i])
    ensures Replay(obs).phase == Up && Replay(obs).reps == 0 && Replay(obs).valid == 0
  {
    if obs != [] {
      var prefix := obs[..|obs| - 1];
      ReplayInBandCountsNothing(prefix);
      var last := obs[|obs| - 1];
      assert InBand(last);
      if last.Some? {
        Hysteresis(Up, last.value);
      }
    }
  }

  /** A sample that takes the counter from up to down. */
  predicate GoesDown(s: Sample)
  {
    Step(Up, s).next == Down
  }

  /** A sample that takes the counter from down back up. */
  predicate GoesUp(s: Sample)
  {
    Step(Down, s).next == Up
  }

  /** A push-up goes down exactly below 90 degrees and comes back up exactly
      above 110; coming up always completes a repetition. */
  lemma PushupCrossings(a: real)
    ensures GoesDown(ElbowAngle(a)) <==> a < PUSHUP_ANGLE_THRESHOLD
    ensures GoesUp(ElbowAngle(a)) <==> a > PUSHUP_UP_ANGLE
    ensures GoesUp(ElbowAngle(a)) ==> Step(Down, ElbowAngle(a)).completed
  {
  }

  /** A sit-up goes down exactly when the vertical torso component exceeds
      0.20 and comes back up exactly when it falls below 0.15, completing a
      repetition whatever the posture. */
  lemma SitupCrossings(dx: real, dy: real)
    ensures GoesDown(Torso(dx, dy)) <==> Abs(dy) > SITUP_DOWN_TORSO
    ensures GoesUp(Torso(dx, dy)) <==> Abs(dy) < SITUP_TORSO_THRESHOLD
    ensures GoesUp(Torso(dx, dy)) ==> Step(Down, Torso(dx, dy)).completed
  {
  }

  /** n cycles, each a sample going down, a frame without a sample and a
      sample coming back up. */
  function Cycles(n: nat, down: Sample, up: Sample): (obs: seq<Option<Sample>>)
    ensures |obs| == 3 * n
  {
    if n == 0 then [] else Cycles(n - 1, down, up) + [Some(down), None, Some(up)]
  }

  /** From the up phase, going down, a gap and coming back up complete
      exactly one repetition and end up. */
  lemma DownThenUp(t: Tally, down: Sample, up: Sample)
    requires t.phase == Up && GoesDown(down) && GoesUp(up)
    ensures Apply(Apply(Apply(t, Some(down)), None), Some(up)).phase == Up
    ensures Apply(Apply(Apply(t, Some(down)), None), Some(up)).reps == t.reps + 1
  {
  }

  /** Going down and back up n times, with gaps in between, counts exactly n
      repetitions and ends up. */
  lemma {:induction false} CyclesCountN(n: nat, down: Sample, up: Sample)
    requires GoesDown(down) && GoesUp(up)
    ensures Replay(Cycles(n, down, up)).reps == n
    ensures Replay(Cycles(n, down, up)).phase == Up
  {
    if n > 0 {
      var before := Cycles(n - 1, down, up);
      CyclesCountN(n - 1, down, up);
      ReplayCycle(before, down, up);
      DownThenUp(Replay(before), down, up);
    }
  }

  /** Replaying one more cycle applies its three samples in turn. */
  lemma ReplayCycle(before: seq<Option<Sample>>, down: Sample, up: Sample)
    ensures Replay(before + [Some(down), None, Some(up)])
         == Apply(Apply(Apply(Replay(before), Some(down)), None), Some(up))
  {
    var first := before + [Some(down)];
    var second := first + [None];
    ReplaySnoc(before, Some(down));
    ReplaySnoc(first, None);
    ReplaySnoc(second, Some(up));
    assert before + [Some(down), None, Some(up)] == second + [Some(up)];
  }

  /** n push-ups, each an angle below 90 then one above 110 with a frame
      without landmarks between, count exactly n repetitions. */
  lemma PushupCyclesCountN(n: nat, low: real, high: real)
    requires low < PUSHUP_ANGLE_THRESHOLD && high > PUSHUP_UP_ANGLE
    ensures Replay(Cycles(n, ElbowAngle(low), ElbowAngle(high))).reps == n
    ensures Replay(Cycles(n, ElbowAngle(low), ElbowAngle(high))).phase == Up
  {
    PushupCrossings(low);
    PushupCrossings(high);
    CyclesCountN(n, ElbowAngle(low), ElbowAngle(high));
  }

  /** n sit-ups, each a vertical torso component above 0.20 then one below
      0.15 with a frame without landmarks between, count exactly n
      repetitions, whatever the horizontal offsets. */
  lemma SitupCyclesCountN(n: nat, downDx: real, high: real, upDx: real, low: real)
    requires Abs(high) > SITUP_DOWN_TORSO && Abs(low) < SITUP_TORSO_THRESHOLD
    ensures Replay(Cycles(n, Torso(downDx, high), Torso(upDx, low))).reps == n
    ensures Replay(Cycles(n, Torso(downDx, high), Torso(upDx, low))).phase == Up
  {
    SitupCrossings(downDx, high);
    SitupCrossings(upDx, low);
    CyclesCountN(n, Torso(downDx, high), Torso(upDx, low));
  }

  // ---------------------------------------------------------------------
  // The window of recent angles
  // ---------------------------------------------------------------------

  /** The most recent (up to ANGLE_WINDOW) values, in arrival order. */
  function Window(s: seq<real>): (w: seq<real>)
    ensures |w| <= ANGLE_WINDOW
  {
    if |s| <= ANGLE_WINDOW then s else s[|s| - ANGLE_WINDOW..]
  }

  /** Appending to the window and dropping its oldest entry when it
      overflows gives the window of the whole history. */
  lemma WindowAppend(s: seq<real>, a: real)
    ensures (var w := Window(s) + [a]; if |w| > ANGLE_WINDOW then w[1..] else w) == Window(s + [a])
  {
  }

  /** The elbow angle a sample carries, if it is a push-up sample. */
  function AngleOf(obs: Option<Sample>): seq<real>
  {
    if obs.Some? && obs.value.ElbowAngle? then [obs.value.angle] else []
  }

  // ---------------------------------------------------------------------
  // The RepCounter class
  // ---------------------------------------------------------------------

  class RepCounter {
    const exercise: Exercise
    var state: Phase
    var repCount: nat
    var validReps: nat
    var lastAngles: seq<real>
    var postureScores: seq<real>
    /** Every push-up angle received so far, oldest first. */
    ghost var angleHistory: seq<real>

    function Snapshot(): Tally
      reads this
    {
      Tally(state, repCount, validReps, postureScores)
    }

    ghost predicate Valid()
      reads this
    {
      Sound(Snapshot()) && lastAngles == Window(angleHistory)
    }

    constructor (kind: Exercise)
      ensures Valid() && exercise == kind
      ensures Snapshot() == Start && lastAngles == [] && angleHistory == []
    {
      exercise := kind;
      state := Up;
      repCount := 0;
      validReps := 0;
      lastAngles := [];
      postureScores := [];
      angleHistory := [];
    }

    /** Feed one frame's landmarks; true exactly when a repetition completed. */
    method Update(landmarks: Landmarks, angle: AngleSource) returns (completed: bool)
      requires Valid()
      modifies this
      ensures Valid()
      ensures Snapshot() == Apply(old(Snapshot()), Observe(exercise, landmarks, angle))
      ensures angleHistory == old(angleHistory) + AngleOf(Observe(exercise, landmarks, angle))
      ensures completed <==> repCount == old(repCount) + 1
    {
      if exercise == Pushup {
        completed := UpdatePushup(landmarks, angle);
      } else if exercise == Situp {
        completed := UpdateSitup(landmarks);
      } else {
        completed := false;
      }
    }

    method UpdatePushup(landmarks: Landmarks, angle: AngleSource) returns (completed: bool)
      requires Valid() && exercise == Pushup
      modifies this
      ensures Valid()
      ensures Snapshot() == Apply(old(Snapshot()), Observe(Pushup, landmarks, angle))
      ensures angleHistory == old(angleHistory) + AngleOf(Observe(Pushup, landmarks, angle))
      ensures completed <==> repCount == old(repCount) + 1
    {
      if landmarks == [] {
        return false;
      }
      var ls := LandmarkAt(landmarks, LEFT_SHOULDER);
      var le := LandmarkAt(landmarks, LEFT_ELBOW);
      var lw := LandmarkAt(landmarks, LEFT_WRIST);
      var rs := LandmarkAt(landmarks, RIGHT_SHOULDER);
      var re := LandmarkAt(landmarks, RIGHT_ELBOW);
      var rw := LandmarkAt(landmarks, RIGHT_WRIST);
      if ls.None? || le.None? || lw.None? || rs.None? || re.None? || rw.None? {
        return false;
      }
      var leftAngle := angle(ls.value, le.value, lw.value);
      var rightAngle := angle(rs.value, re.value, rw.value);
      var avg := (leftAngle + rightAngle) / 2.0;
      assert Observe(Pushup, landmarks, angle) == Some(ElbowAngle(avg));

      ghost var before := Snapshot();
      ghost var tr := Step(state, ElbowAngle(avg));

      PushAngle(avg);

      var score := PushupPosture(state, avg);
      assert score == tr.score;
      postureScores := postureScores + [score];

      completed := false;
      if state == Up && avg < PUSHUP_ANGLE_THRESHOLD {
        assert tr == Transition(Down, score, false, false);
        state := Down;
      } else if state == Down && avg > PUSHUP_UP_ANGLE {
        assert tr == Transition(Up, score, true, score > PUSHUP_MIN_POSTURE);
        state := Up;
        repCount := repCount + 1;
        if score > PUSHUP_MIN_POSTURE {
          validReps := validReps + 1;
        }
        completed := true;
      } else {
        assert tr == Transition(state, score, false, false);
      }
      assert Snapshot() == Tally(tr.next, before.reps + (if tr.completed then 1 else 0),
                                 before.valid + (if tr.valid then 1 else 0), before.scores + [tr.score]);
      assert Snapshot() == Apply(before, Some(ElbowAngle(avg)));
    }

    /** Append an elbow angle to the bounded window of recent angles. */
    method PushAngle(avg: real)
      requires lastAngles == Window(angleHistory)
      modifies this
      ensures lastAngles == Window(angleHistory) && angleHistory == old(angleHistory) + [avg]
      ensures state == old(state) && repCount == old(repCount) && validReps == old(validReps)
      ensures postureScores == old(postureScores)
    {
      WindowAppend(angleHistory, avg);
      lastAngles := lastAngles + [avg];
      if |lastAngles| > ANGLE_WINDOW {
        lastAngles := lastAngles[1..];
      }
      angleHistory := angleHistory + [avg];
    }

    method UpdateSitup(landmarks: Landmarks) returns (completed: bool)
      requires Valid() && exercise == Situp
      modifies this
      ensures Valid() && angleHistory == old(angleHistory)
      ensures forall angle: AngleSource :: Snapshot() == Apply(old(Snapshot()), Observe(Situp, landmarks, angle))
      ensures completed <==> repCount == old(repCount) + 1
    {
      if landmarks == [] {
        return false;
      }
      var ls := LandmarkAt(landmarks, LEFT_SHOULDER);
      var rs := LandmarkAt(landmarks, RIGHT_SHOULDER);
      var lh := LandmarkAt(landmarks, LEFT_HIP);
      var rh := LandmarkAt(landmarks, RIGHT_HIP);
      if ls.None? || rs.None? || lh.None? || rh.None? {
        return false;
      }
      var shoulderMid := Point((ls.value.x + rs.value.x) / 2.0, (ls.value.y + rs.value.y) / 2.0);
      var hipMid := Point((lh.value.x + rh.value.x) / 2.0, (lh.value.y + rh.value.y) / 2.0);
      var dx := shoulderMid.x - hipMid.x;
      var dy := shoulderMid.y - hipMid.y;
      var vertical := Abs(dy);
      assert forall angle: AngleSource :: Observe(Situp, landmarks, angle) == Some(Torso(dx, dy));

      ghost var before := Snapshot();
      ghost var tr := Step(state, Torso(dx, dy));
      var score := SitupPosture(dx, dy);
      postureScores := postureScores + [score];

      completed := false;
      if state == Down && vertical < SITUP_TORSO_THRESHOLD {
        state := Up;
        repCount := repCount + 1;
        if score > SITUP_MIN_POSTURE {
          validReps := validReps + 1;
        }
        completed := true;
      } else if state == Up && vertical > SITUP_DOWN_TORSO {
        state := Down;
      }
      assert Snapshot() == Tally(tr.next, before.reps + (if tr.completed then 1 else 0),
                                 before.valid + (if tr.valid then 1 else 0), before.scores + [tr.score]);
      assert Snapshot() == Apply(before, Some(Torso(dx, dy)));
    }

    /** get_average_posture_score: 0.0 with no scores, otherwise their mean,
        so always within [0, 1]. */
    function AveragePostureScore(): (avg: real)
      reads this
      requires Valid()
      ensures 0.0 <= avg <= 1.0
      ensures postureScores == [] ==> avg == 0.0
    {
      if postureScores == [] then 0.0
      else
        MeanWithin(postureScores, 0.0, 1.0);
        Mean(postureScores)
    }
  }
}
