/** How the pieces fit together, and how the two counting rules compare.

    A frame's raw direction difference is folded into the joint angle, and
    the angle stream feeds the counters. The knee analysis counts completed
    bend-and-extend cycles with two thresholds; the back-thigh analyses
    count every frame below a single threshold. Both thresholds for "bent"
    are 70 degrees. */
module Pipeline {
  import opened Frames
  import Angle
  import Hysteresis
  import Tally

  /** Rows recorded from folded frames hold angles in [0, 180]. */
  lemma FoldedRowsInRange(raw: seq<Frame>)
    requires forall i :: 0 <= i < |raw| && raw[i].angle.Some? ==> Angle.InRange(raw[i].angle.value)
    ensures var data := Tally.Run(Angle.FoldFrames(raw)).data;
            forall k :: 0 <= k < |data| ==> 0.0 <= data[k].angle <= 180.0
  {
    var fs := Angle.FoldFrames(raw);
    Tally.RunLedger(fs);
    ReadingsWithin(Angles(fs), 0.0, 180.0);
  }

  /** On the same frames, the single-threshold tally is never below the
      number of completed cycles: every cycle needs a frame below 70, and
      the tally counts each such frame. */
  lemma TallyAtLeastCycles(fs: seq<Frame>)
    ensures Hysteresis.Run(Angles(fs)).reps <= Tally.Run(fs).repCount
  {
    Hysteresis.RepsBoundedByBends(Angles(fs));
    Tally.RunLedger(fs);
  }

  /** One squat held below 70 for two frames: the two-threshold counter
      counts one repetition, the single-threshold tally two. */
  lemma SquatCountedDifferently()
    ensures var fs := [Frame(0, Some(170.0)), Frame(1, Some(60.0)), Frame(2, Some(50.0)), Frame(3, Some(170.0))];
            Hysteresis.Run(Angles(fs)).reps == 1 && Tally.Run(fs).repCount == 2
  {
    var fs := [Frame(0, Some(170.0)), Frame(1, Some(60.0)), Frame(2, Some(50.0)), Frame(3, Some(170.0))];
    var xs := Angles(fs);
    assert xs == [Some(170.0), Some(60.0), Some(50.0), Some(170.0)];
    assert xs[..0] == [];
    assert xs[..1][..0] == xs[..0];
    assert xs[..2][..1] == xs[..1];
    assert xs[..3][..2] == xs[..2];
    assert xs[..4][..3] == xs[..3];
    assert xs[..4] == xs;
    assert Hysteresis.Run(xs[..1]) == Hysteresis.Knee(false, 0);
    assert Hysteresis.Run(xs[..2]) == Hysteresis.Knee(true, 0);
    assert Hysteresis.Run(xs[..3]) == Hysteresis.Knee(true, 0);
    Tally.SquatTalliedPerFrame();
  }
}
