/** The coaching variant of the back-thigh analysis: the same tally and data
    rows as `Tally`, plus a history of every angle seen, the clock reading of
    every counted repetition, and spoken feedback.

    Per frame with landmarks, in order: the angle joins the history; an angle
    below the repetition threshold adds one to the tally, records the clock
    and announces a completed repetition; an angle above the posture limit
    announces a posture warning; one data row is appended. A frame without
    landmarks changes nothing and says nothing. */
module Coach {
  import opened Frames
  import Tally

  /** Above this back-thigh angle (degrees) the posture is called incorrect. */
  const PostureLimit: real := 170.0

  /** `history` and `repTimes` are `angle_history` and `rep_time` of
      `process_frame` in `main1.6.py`. */
  datatype Coach = Coach(tally: Tally.Tally, history: seq<real>, repTimes: seq<Instant>)

  const Start: Coach := Coach(Tally.Start, [], [])

  /** What the voice says on a frame. The spoken wording is not modelled;
      the exercise name is part of the repetition message. */
  datatype Alert = RepetitionCompleted(exercise: string) | PostureWarning

  /** One frame of `process_frame`: tally and rows as in `Tally.Step`, plus
      the history and the repetition clocks. */
  function Step(c: Coach, f: Frame): (r: Coach)
    // no landmarks: nothing changes
    ensures f.angle.None? ==> r == c
    // the tally and rows evolve exactly as in the other variants
    ensures r.tally == Tally.Step(c.tally, f)
    // landmarks: the angle is appended to the history exactly once
    ensures f.angle.Some? ==> r.history == c.history + [f.angle.value]
    // a clock reading is recorded exactly when a repetition is counted
    ensures r.tally.repCount == c.tally.repCount + 1 ==> r.repTimes == c.repTimes + [f.now]
    ensures r.tally.repCount == c.tally.repCount ==> r.repTimes == c.repTimes
  {
    match f.angle
    case None => c
    case Some(angle) =>
      var times := if angle < Tally.Threshold then c.repTimes + [f.now] else c.repTimes;
      Coach(Tally.Step(c.tally, f), c.history + [angle], times)
  }

  /** The messages spoken on frame `f`, in the order they are spoken. */
  function Alerts(exercise: string, f: Frame): seq<Alert>
  {
    match f.angle
    case None => []
    case Some(angle) =>
      (if angle < Tally.Threshold then [RepetitionCompleted(exercise)] else [])
      + (if angle > PostureLimit then [PostureWarning] else [])
  }

  /** A frame never both counts a repetition and warns about posture: at
      most one message is spoken, the repetition message exactly when the
      tally moves, the warning exactly when the angle is above the limit. */
  lemma AlertsExclusive(c: Coach, exercise: string, f: Frame)
    ensures |Alerts(exercise, f)| <= 1
    ensures RepetitionCompleted(exercise) in Alerts(exercise, f)
            <==> Step(c, f).tally.repCount == c.tally.repCount + 1
    ensures PostureWarning in Alerts(exercise, f) <==> Above(f.angle, PostureLimit)
    ensures PostureWarning in Alerts(exercise, f) ==> Step(c, f).tally.repCount == c.tally.repCount
  {
  }

  /** The coach after the frames `fs`, from empty lists and a zero tally. */
  function Run(fs: seq<Frame>): Coach
  {
    if fs == [] then Start else Step(Run(fs[..|fs| - 1]), fs[|fs| - 1])
  }

  /** The lists move in lock-step: one history entry per data row, holding
      that row's angle, and one repetition clock per counted repetition. */
  ghost predicate LockStep(c: Coach) {
    && |c.history| == |c.tally.data|
    && (forall i :: 0 <= i < |c.history| ==> c.history[i] == c.tally.data[i].angle)
    && |c.repTimes| == c.tally.repCount
  }

  lemma StepKeepsLockStep(c: Coach, f: Frame)
    requires LockStep(c)
    ensures LockStep(Step(c, f))
  {
  }

  /** After any frames: the tally part is the plain tally, the lists are in
      lock-step, the history is the angles seen in order and the repetition
      clocks are those of the frames below the threshold. */
  lemma {:induction false} RunLockStep(fs: seq<Frame>)
    ensures Run(fs).tally == Tally.Run(fs)
    ensures LockStep(Run(fs))
    ensures Run(fs).history == Readings(Angles(fs))
    ensures Run(fs).repTimes == ClocksBelow(fs, Tally.Threshold)
    decreases |fs|
  {
    if fs != [] {
      var p := fs[..|fs| - 1];
      RunLockStep(p);
      StepKeepsLockStep(Run(p), fs[|fs| - 1]);
      assert Angles(fs)[..|fs| - 1] == Angles(p);
    }
  }

  /** The frames of `fs` that carry an angle, in order. */
  function Present(fs: seq<Frame>): seq<Frame>
  {
    if fs == [] then []
    else Present(fs[..|fs| - 1]) + (if fs[|fs| - 1].angle.Some? then [fs[|fs| - 1]] else [])
  }

  /** Frames without landmarks, wherever they occur, have no effect: the
      tally, the rows, the history and the repetition clocks are the same as
      if only the frames with landmarks had been processed. */
  lemma {:induction false} RunSkipsMissing(fs: seq<Frame>)
    ensures Run(fs) == Run(Present(fs))
    decreases |fs|
  {
    if fs != [] {
      var p := fs[..|fs| - 1];
      var f := fs[|fs| - 1];
      RunSkipsMissing(p);
      if f.angle.Some? {
        var q := Present(p) + [f];
        assert q[..|q| - 1] == Present(p);
      } else {
        assert Present(fs) == Present(p) + [];
        assert Present(p) + [] == Present(p);
      }
    }
  }
}
