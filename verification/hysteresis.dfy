/** The knee-bend analysis of a squat video: a posture label for every frame
    with landmarks, and a two-threshold repetition counter.

    The counter remembers whether the knee is bent. A frame whose knee angle
    drops below the lower threshold while the knee is extended marks it bent;
    a frame whose angle rises above the upper threshold while it is bent
    counts one repetition and marks it extended again. Any other frame, and
    every frame without landmarks, changes nothing. The posture label is
    independent of the counter and looks only at the current angle. */
module Hysteresis {
  import opened Frames

  /** Below this knee angle (degrees) the knee counts as bent. */
  const Lower: real := 70.0
  /** Above this knee angle (degrees) the knee counts as extended. */
  const Upper: real := 160.0

  // ---------------------------------------------------------------------
  // Posture feedback

  datatype Posture = TooTight | TooWide | Correct

  /** The posture zone of one knee angle: exactly one of the three. */
  function Classify(angle: real): (p: Posture)
    ensures p == TooTight <==> angle < Lower
    ensures p == TooWide <==> angle > Upper
    ensures p == Correct <==> Lower <= angle <= Upper
  {
    if angle < Lower then TooTight
    else if angle > Upper then TooWide
    else Correct
  }

  /** The text drawn on the frame for each posture zone. */
  function Label(p: Posture): string {
    match p
    case TooTight => "Piegamento ginocchio troppo stretto"
    case TooWide => "Piegamento ginocchio troppo largo"
    case Correct => "Piegamento corretto"
  }

  /** Different zones are shown with different texts, so the text on screen
      identifies the zone. */
  lemma LabelInjective(p: Posture, q: Posture)
    requires Label(p) == Label(q)
    ensures p == q
  {
  }

  /** The label shown for a frame, if the frame has landmarks. */
  function Feedback(a: Option<real>): (r: Option<string>)
    ensures r.Some? <==> a.Some?
    ensures a.Some? && a.value < Lower ==> r == Some("Piegamento ginocchio troppo stretto")
    ensures a.Some? && a.value > Upper ==> r == Some("Piegamento ginocchio troppo largo")
    ensures a.Some? && Lower <= a.value <= Upper ==> r == Some("Piegamento corretto")
  {
    match a
    case None => None
    case Some(x) => Some(Label(Classify(x)))
  }

  // ---------------------------------------------------------------------
  // Repetition counter

  /** `bent` and `reps` are `knee_bent` and `rep_count` of `analyze_video` in
      `main.py`. */
  datatype Knee = Knee(bent: bool, reps: nat)

  const Start: Knee := Knee(false, 0)

  /** One frame of the counter. */
  function Step(k: Knee, a: Option<real>): (r: Knee)
    // a frame without landmarks is a no-op
    ensures a.None? ==> r == k
    // arming: extended knee, angle below the lower threshold
    ensures !k.bent && Below(a, Lower) ==> r == Knee(true, k.reps)
    // completing: bent knee, angle above the upper threshold
    ensures k.bent && Above(a, Upper) ==> r == Knee(false, k.reps + 1)
    // nothing else moves the state
    ensures !(!k.bent && Below(a, Lower)) && !(k.bent && Above(a, Upper)) ==> r == k
    ensures r.reps == k.reps + 1 <==> k.bent && Above(a, Upper)
  {
    match a
    case None => k
    case Some(angle) =>
      if angle < Lower && !k.bent then Knee(true, k.reps)
      else if angle > Upper && k.bent then Knee(false, k.reps + 1)
      else k
  }

  /** The counter after the frames `fs`, starting extended with no repetitions. */
  function Run(fs: seq<Option<real>>): Knee
  {
    if fs == [] then Start else Step(Run(fs[..|fs| - 1]), fs[|fs| - 1])
  }

  /** A repetition is completed at frame `i` of `fs`. */
  predicate CompletesAt(fs: seq<Option<real>>, i: nat)
    requires i < |fs|
  {
    Run(fs[..i + 1]).reps == Run(fs[..i]).reps + 1
  }

  // ---------------------------------------------------------------------
  // Reference definition: counting from the angle stream alone

  /** The frames `p` leave the knee bent: some frame dropped below the lower
      threshold and no frame since rose above the upper one. */
  ghost predicate Armed(p: seq<Option<real>>) {
    exists j :: 0 <= j < |p| && Below(p[j], Lower) && NoneAbove(p, j + 1)
  }

  /** No frame of `p` from index `from` on rises above the upper threshold. */
  ghost predicate NoneAbove(p: seq<Option<real>>, from: nat) {
    forall k :: from <= k < |p| ==> !Above(p[k], Upper)
  }

  /** Number of frames of `fs` that rise above the upper threshold while the
      frames before them leave the knee bent: the completed bend-and-extend
      cycles. */
  ghost function Cycles(fs: seq<Option<real>>): nat
  {
    if fs == [] then 0
    else
      var p := fs[..|fs| - 1];
      Cycles(p) + (if Above(fs[|fs| - 1], Upper) && Armed(p) then 1 else 0)
  }

  /** Appending one frame: the knee is bent afterwards exactly when that frame
      is below the lower threshold, or it was bent and the frame does not rise
      above the upper one. */
  lemma ArmedSnoc(p: seq<Option<real>>, f: Option<real>)
    ensures Armed(p + [f]) <==> Below(f, Lower) || (Armed(p) && !Above(f, Upper))
  {
    var q := p + [f];
    if Below(f, Lower) {
      assert Below(q[|p|], Lower) && NoneAbove(q, |p| + 1);
    } else if Armed(p) && !Above(f, Upper) {
      var j :| 0 <= j < |p| && Below(p[j], Lower) && NoneAbove(p, j + 1);
      assert Below(q[j], Lower);
      assert NoneAbove(q, j + 1) by {
        forall k | j + 1 <= k < |q|
          ensures !Above(q[k], Upper)
        {
          if k < |p| {
            assert q[k] == p[k];
          }
        }
      }
    }
    if Armed(q) {
      var j :| 0 <= j < |q| && Below(q[j], Lower) && NoneAbove(q, j + 1);
      if j < |p| {
        assert !Above(q[|p|], Upper);
        assert Below(p[j], Lower);
        assert NoneAbove(p, j + 1) by {
          forall k | j + 1 <= k < |p|
            ensures !Above(p[k], Upper)
          {
            assert q[k] == p[k];
          }
        }
      }
    }
  }

  /** The counter computes the reference definition: it is bent exactly when
      the stream leaves the knee bent, and it has counted exactly the
      completed cycles. */
  lemma {:induction false} RunCountsCycles(fs: seq<Option<real>>)
    ensures Run(fs).bent <==> Armed(fs)
    ensures Run(fs).reps == Cycles(fs)
    decreases |fs|
  {
    if fs != [] {
      var p := fs[..|fs| - 1];
      var f := fs[|fs| - 1];
      RunCountsCycles(p);
      assert fs == p + [f];
      ArmedSnoc(p, f);
    }
  }

  /** A repetition is completed at frame `i` exactly when that frame rises
      above the upper threshold while the frames before it leave the knee
      bent. */
  lemma CompletesAtIff(fs: seq<Option<real>>, i: nat)
    requires i < |fs|
    ensures CompletesAt(fs, i) <==> Above(fs[i], Upper) && Armed(fs[..i])
  {
    var p := fs[..i + 1];
    assert p[..|p| - 1] == fs[..i];
    RunCountsCycles(fs[..i]);
  }

  /** Two repetitions are never counted without a frame below the lower
      threshold between them. */
  lemma BendBetweenRepetitions(fs: seq<Option<real>>, i: nat, i': nat)
    requires i < i' < |fs|
    requires CompletesAt(fs, i) && CompletesAt(fs, i')
    ensures exists j :: i < j < i' && Below(fs[j], Lower)
  {
    CompletesAtIff(fs, i);
    CompletesAtIff(fs, i');
    var p := fs[..i'];
    var j :| 0 <= j < |p| && Below(p[j], Lower) && NoneAbove(p, j + 1);
    assert p[i] == fs[i] && p[j] == fs[j];
  }

  /** Every completed repetition, and a knee still bent, took its own frame
      below the lower threshold: the count never exceeds the number of such
      frames. */
  lemma {:induction false} RepsBoundedByBends(fs: seq<Option<real>>)
    ensures Run(fs).reps + (if Run(fs).bent then 1 else 0) <= CountBelow(fs, Lower)
    decreases |fs|
  {
    if fs != [] {
      RepsBoundedByBends(fs[..|fs| - 1]);
    }
  }

  /** The count never decreases from one prefix of the stream to a longer
      one, and grows by at most one per frame. */
  lemma {:induction false} RunMonotone(fs: seq<Option<real>>, n: nat, m: nat)
    requires n <= m <= |fs|
    ensures Run(fs[..n]).reps <= Run(fs[..m]).reps <= Run(fs[..n]).reps + (m - n)
    decreases m - n
  {
    if n < m {
      RunMonotone(fs, n, m - 1);
      assert fs[..m][..m - 1] == fs[..m - 1];
    }
  }

  /** Frames without landmarks leave the counter where it was. */
  lemma {:induction false} RunIgnoresMissing(fs: seq<Option<real>>, n: nat)
    requires n <= |fs|
    requires forall k :: n <= k < |fs| ==> fs[k].None?
    ensures Run(fs) == Run(fs[..n])
    decreases |fs| - n
  {
    if n < |fs| {
      var p := fs[..|fs| - 1];
      assert p[..n] == fs[..n];
      assert fs[|fs| - 1].None?;
      RunIgnoresMissing(p, n);
    } else {
      assert fs[..n] == fs;
    }
  }

  /** The posture label agrees with the counter: a repetition is only ever
      counted on a frame labelled too wide, and the knee only becomes bent on
      a frame labelled too tight. */
  lemma StepAgreesWithClassify(k: Knee, angle: real)
    ensures Step(k, Some(angle)).reps == k.reps + 1 ==> Classify(angle) == TooWide
    ensures Step(k, Some(angle)).bent && !k.bent ==> Classify(angle) == TooTight
  {
  }

  // ---------------------------------------------------------------------
  // Worked examples

  /** One squat: standing, going down, a rebound at 65, standing up again.
      Exactly one repetition, counted at the final frame and not at the
      rebound. */
  lemma SquatCountsOnce()
    ensures var fs := [Some(170.0), Some(100.0), Some(60.0), Some(50.0), Some(65.0), Some(100.0), Some(170.0)];
            Run(fs).reps == 1 && Run(fs[..6]).reps == 0 && CompletesAt(fs, 6)
  {
    var fs := [Some(170.0), Some(100.0), Some(60.0), Some(50.0), Some(65.0), Some(100.0), Some(170.0)];
    assert fs[..0] == [];
    assert fs[..1][..0] == fs[..0];
    assert fs[..2][..1] == fs[..1];
    assert fs[..3][..2] == fs[..2];
    assert fs[..4][..3] == fs[..3];
    assert fs[..5][..4] == fs[..4];
    assert fs[..6][..5] == fs[..5];
    assert fs[..7][..6] == fs[..6];
    assert fs[..7] == fs;
    assert Run(fs[..1]) == Knee(false, 0);
    assert Run(fs[..2]) == Knee(false, 0);
    assert Run(fs[..3]) == Knee(true, 0);
    assert Run(fs[..4]) == Knee(true, 0);
    assert Run(fs[..5]) == Knee(true, 0);
    assert Run(fs[..6]) == Knee(true, 0);
  }

  /** Bouncing around the lower threshold arms the counter once; the final
      frame at 175 is above the upper threshold, so it completes exactly one
      repetition, and the bounces add none. */
  lemma BounceCountsOnce()
    ensures var fs := [Some(170.0), Some(65.0), Some(75.0), Some(65.0), Some(75.0), Some(65.0), Some(175.0)];
            Run(fs[..6]).reps == 0 && Run(fs).reps == 1
  {
    var fs := [Some(170.0), Some(65.0), Some(75.0), Some(65.0), Some(75.0), Some(65.0), Some(175.0)];
    assert fs[..0] == [];
    assert fs[..1][..0] == fs[..0];
    assert fs[..2][..1] == fs[..1];
    assert fs[..3][..2] == fs[..2];
    assert fs[..4][..3] == fs[..3];
    assert fs[..5][..4] == fs[..4];
    assert fs[..6][..5] == fs[..5];
    assert fs[..7][..6] == fs[..6];
    assert fs[..7] == fs;
    assert Run(fs[..1]) == Knee(false, 0);
    assert Run(fs[..2]) == Knee(true, 0);
    assert Run(fs[..3]) == Knee(true, 0);
    assert Run(fs[..4]) == Knee(true, 0);
    assert Run(fs[..5]) == Knee(true, 0);
    assert Run(fs[..6]) == Knee(true, 0);
  }
}
