/** The back-thigh analysis shared by the video and webcam variants: a
    single-threshold repetition tally and the session data rows.

    Every frame with landmarks yields the back-thigh angle (shoulder, hip,
    knee). A frame whose angle is below the threshold adds one to the tally
    (there is no bent/extended state to re-arm), and every frame with
    landmarks appends one row `[clock, tally, angle]` holding the tally after
    that frame. A frame without landmarks leaves tally and rows as they are.
    The two variants run the same per-frame code; they differ only in where
    the rows go afterwards (a CSV file, or a CSV file plus a report entry
    carrying the final tally). */
module Tally {
  import opened Frames

  /** Below this back-thigh angle (degrees) a frame counts as a repetition. */
  const Threshold: real := 70.0

  /** One data row, in the column order Timestamp, Repetitions, Angle. */
  datatype Row = Row(timestamp: Instant, repetitions: nat, angle: real)

  /** `repCount` and `data` are `rep_count` and `data` as threaded through
      `process_frame` and `analyze_video` in `main1.8.py`. */
  datatype Tally = Tally(repCount: nat, data: seq<Row>)

  const Start: Tally := Tally(0, [])

  /** One frame of `process_frame`. */
  function Step(t: Tally, f: Frame): (r: Tally)
    // no landmarks: nothing changes
    ensures f.angle.None? ==> r == t
    // landmarks: the tally grows by one exactly when the angle is below the
    // threshold, and by nothing otherwise
    ensures f.angle.Some? ==> (r.repCount == t.repCount + 1 <==> f.angle.value < Threshold)
    ensures r.repCount == t.repCount || r.repCount == t.repCount + 1
    // landmarks: exactly one row is appended, carrying the updated tally and
    // the angle, and the earlier rows are kept
    ensures f.angle.Some? ==> r.data == t.data + [Row(f.now, r.repCount, f.angle.value)]
  {
    match f.angle
    case None => t
    case Some(angle) =>
      var n := if angle < Threshold then t.repCount + 1 else t.repCount;
      Tally(n, t.data + [Row(f.now, n, angle)])
  }

  /** The tally after the frames `fs`, from a zero tally and no rows. */
  function Run(fs: seq<Frame>): Tally
  {
    if fs == [] then Start else Step(Run(fs[..|fs| - 1]), fs[|fs| - 1])
  }

  // ---------------------------------------------------------------------
  // The ledger invariant

  /** Number of rows whose angle is below the threshold. */
  function LowRows(rows: seq<Row>): nat
  {
    if rows == [] then 0
    else LowRows(rows[..|rows| - 1]) + (if rows[|rows| - 1].angle < Threshold then 1 else 0)
  }

  /** The tally and every row's Repetitions field count the rows (up to and
      including that row) whose angle is below the threshold. */
  ghost predicate Ledger(t: Tally) {
    && t.repCount == LowRows(t.data)
    && forall i :: 0 <= i < |t.data| ==> t.data[i].repetitions == LowRows(t.data[..i + 1])
  }

  lemma StepKeepsLedger(t: Tally, f: Frame)
    requires Ledger(t)
    ensures Ledger(Step(t, f))
  {
    if f.angle.Some? {
      var r := Step(t, f);
      assert r.data[..|r.data| - 1] == t.data;
      assert LowRows(r.data) == LowRows(t.data) + (if f.angle.value < Threshold then 1 else 0);
      forall i | 0 <= i < |r.data|
        ensures r.data[i].repetitions == LowRows(r.data[..i + 1])
      {
        if i < |t.data| {
          assert r.data[..i + 1] == t.data[..i + 1];
        } else {
          assert r.data[..i + 1] == r.data;
        }
      }
    }
  }

  /** After any frames: the ledger holds, the rows are the frames with
      landmarks in order, and the tally is the number of frames below the
      threshold. */
  lemma {:induction false} RunLedger(fs: seq<Frame>)
    ensures Ledger(Run(fs))
    ensures |Run(fs).data| == CountSeen(Angles(fs)) == |Readings(Angles(fs))|
    ensures forall k :: 0 <= k < |Run(fs).data| ==> Run(fs).data[k].angle == Readings(Angles(fs))[k]
    ensures Run(fs).repCount == CountBelow(Angles(fs), Threshold)
    decreases |fs|
  {
    if fs != [] {
      var p := fs[..|fs| - 1];
      RunLedger(p);
      StepKeepsLedger(Run(p), fs[|fs| - 1]);
      assert Angles(fs)[..|fs| - 1] == Angles(p);
      ReadingsCount(Angles(fs), Threshold);
    }
  }

  /** Consecutive rows: the Repetitions column steps by one exactly when the
      later row's angle is below the threshold, and otherwise stays put. */
  lemma RepetitionsStep(t: Tally, i: nat)
    requires Ledger(t)
    requires i + 1 < |t.data|
    ensures t.data[i + 1].repetitions
            == t.data[i].repetitions + (if t.data[i + 1].angle < Threshold then 1 else 0)
  {
    assert t.data[..i + 2][..i + 1] == t.data[..i + 1];
  }

  /** The Repetitions column never decreases. */
  lemma {:induction false} RepetitionsMonotone(t: Tally, i: nat, j: nat)
    requires Ledger(t)
    requires i <= j < |t.data|
    ensures t.data[i].repetitions <= t.data[j].repetitions <= t.data[i].repetitions + (j - i)
    decreases j - i
  {
    if i < j {
      RepetitionsMonotone(t, i, j - 1);
      RepetitionsStep(t, j - 1);
    }
  }

  /** The last row carries the final tally: the count reported with the rows
      agrees with the rows themselves. */
  lemma LastRowIsFinalCount(t: Tally)
    requires Ledger(t)
    requires |t.data| > 0
    ensures t.data[|t.data| - 1].repetitions == t.repCount
  {
    assert t.data[..|t.data|] == t.data;
  }

  /** The tally never exceeds the number of rows. */
  lemma {:induction false} CountAtMostRows(fs: seq<Frame>)
    ensures Run(fs).repCount <= |Run(fs).data|
  {
    RunLedger(fs);
    ReadingsCount(Angles(fs), Threshold);
  }

  /** Frames without landmarks leave tally and rows where they were. */
  lemma {:induction false} RunIgnoresMissing(fs: seq<Frame>, n: nat)
    requires n <= |fs|
    requires forall k :: n <= k < |fs| ==> fs[k].angle.None?
    ensures Run(fs) == Run(fs[..n])
    decreases |fs| - n
  {
    if n < |fs| {
      var p := fs[..|fs| - 1];
      assert p[..n] == fs[..n];
      assert fs[|fs| - 1].angle.None?;
      RunIgnoresMissing(p, n);
    } else {
      assert fs[..n] == fs;
    }
  }

  /** One squat seen by the single threshold: standing, two frames below 70,
      standing again. Every frame below the threshold is counted, so this
      single bend is tallied twice; the two-threshold counter counts it once. */
  lemma SquatTalliedPerFrame()
    ensures var fs := [Frame(0, Some(170.0)), Frame(1, Some(60.0)), Frame(2, Some(50.0)), Frame(3, Some(170.0))];
            && Run(fs).repCount == 2
            && Run(fs).data == [Row(0, 0, 170.0), Row(1, 1, 60.0), Row(2, 2, 50.0), Row(3, 2, 170.0)]
  {
    var fs := [Frame(0, Some(170.0)), Frame(1, Some(60.0)), Frame(2, Some(50.0)), Frame(3, Some(170.0))];
    assert fs[..0] == [];
    assert fs[..1][..0] == fs[..0];
    assert fs[..2][..1] == fs[..1];
    assert fs[..3][..2] == fs[..2];
    assert fs[..4][..3] == fs[..3];
    assert fs[..4] == fs;
    assert Run(fs[..1]) == Tally(0, [Row(0, 0, 170.0)]);
    assert Run(fs[..2]) == Tally(1, [Row(0, 0, 170.0), Row(1, 1, 60.0)]);
    assert Run(fs[..3]) == Tally(2, [Row(0, 0, 170.0), Row(1, 1, 60.0), Row(2, 2, 50.0)]);
  }
}
