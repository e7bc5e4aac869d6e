/** The joint angle at a vertex landmark.

    `calculate_angle` takes the difference of the directions of the two rays
    leaving the vertex (each given by the two-argument arctangent), converts
    it to degrees, takes its absolute value and folds anything above 180 back
    to `360 - x`, so that the angle reported is undirected. The arctangent
    and the radian-to-degree conversion are floating-point trigonometry and
    are not modelled: their result enters the model as a raw difference `d`
    in degrees. Each arctangent lies in [-180, 180], so `d` lies in
    [-360, 360]. */
module Angle {
  import opened Frames

  function Abs(x: real): real {
    if x < 0.0 then -x else x
  }

  /** A raw direction difference the arctangents can produce. */
  predicate InRange(d: real) {
    -360.0 <= d <= 360.0
  }

  /** The undirected angle for the raw difference `d`: it lies in [0, 180]
      and is congruent to `d` or `-d` modulo a full turn. */
  function Fold(d: real): (r: real)
    requires InRange(d)
    ensures 0.0 <= r <= 180.0
    ensures r == Abs(d) || r == 360.0 - Abs(d)
  {
    var angle := Abs(d);
    if angle > 180.0 then 360.0 - angle else angle
  }

  /** Fold picks the only candidate in [0, 180]: whichever of |d| and
      360 - |d| is a valid undirected angle is the one it returns. */
  lemma FoldUnique(d: real, r: real)
    requires InRange(d)
    requires 0.0 <= r <= 180.0
    requires r == Abs(d) || r == 360.0 - Abs(d)
    ensures r == Fold(d)
  {
  }

  /** Swapping the outer landmarks negates the raw difference; the folded
      angle does not change. */
  lemma FoldSymmetric(d: real)
    requires InRange(d)
    ensures Fold(-d) == Fold(d)
  {
  }

  /** Right angles at b = (0, 0). With a = (0, 1) and c = (1, 0) the raw
      difference is 0 - 90 = -90; swapping a and c gives +90. With
      a = (0, -1) and c = (-1, 0) it is 180 - (-90) = 270. All fold to 90. */
  lemma FoldRightAngle()
    ensures Fold(-90.0) == 90.0
    ensures Fold(90.0) == 90.0
    ensures Fold(270.0) == 90.0
  {
  }

  /** The angle stream of a sequence of frames that carry raw differences:
      frames without landmarks stay without an angle, the others are folded. */
  function FoldFrames(fs: seq<Frame>): (r: seq<Frame>)
    requires forall i :: 0 <= i < |fs| && fs[i].angle.Some? ==> InRange(fs[i].angle.value)
    ensures |r| == |fs|
    ensures forall i :: 0 <= i < |fs| ==> r[i].now == fs[i].now
    ensures forall i :: 0 <= i < |fs| ==> (r[i].angle.Some? <==> fs[i].angle.Some?)
    ensures forall i :: 0 <= i < |fs| && r[i].angle.Some? ==> 0.0 <= r[i].angle.value <= 180.0
    ensures forall i :: 0 <= i < |fs| && r[i].angle.Some? ==>
              r[i].angle.value == Abs(fs[i].angle.value) || r[i].angle.value == 360.0 - Abs(fs[i].angle.value)
  {
    seq(|fs|, i requires 0 <= i < |fs| =>
      match fs[i].angle
      case None => Frame(fs[i].now, None)
      case Some(d) => Frame(fs[i].now, Some(Fold(d))))
  }
}
