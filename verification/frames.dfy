/** Shared vocabulary of the per-frame analytics: the optional angle a frame
    yields, the clock reading that stamps it, and counts over angle streams.

    A video or camera frame is reduced to what the analytics consume: the
    joint angle in degrees when the pose estimator found landmarks, or
    nothing when it did not. Pose estimation itself and the capture loop are
    outside the model. */
module Frames {

  datatype Option<+T> = None | Some(value: T)

  /** A reading of the wall clock taken while a frame is processed. Only its
      identity matters to the analytics; its formatting is not modelled. */
  type Instant = nat

  /** One processed frame: when it was processed, and the angle it yielded. */
  datatype Frame = Frame(now: Instant, angle: Option<real>)

  /** True when the frame carries an angle strictly below `bound`. */
  predicate Below(a: Option<real>, bound: real) {
    a.Some? && a.value < bound
  }

  /** True when the frame carries an angle strictly above `bound`. */
  predicate Above(a: Option<real>, bound: real) {
    a.Some? && a.value > bound
  }

  /** The angle stream of a sequence of stamped frames. */
  function Angles(fs: seq<Frame>): (r: seq<Option<real>>)
    ensures |r| == |fs|
    ensures forall i :: 0 <= i < |fs| ==> r[i] == fs[i].angle
  {
    seq(|fs|, i requires 0 <= i < |fs| => fs[i].angle)
  }

  /** Number of frames in `xs` whose angle lies strictly below `bound`. */
  function CountBelow(xs: seq<Option<real>>, bound: real): nat
  {
    if xs == [] then 0
    else CountBelow(xs[..|xs| - 1], bound) + (if Below(xs[|xs| - 1], bound) then 1 else 0)
  }

  /** Number of frames in `xs` that carry an angle at all. */
  function CountSeen(xs: seq<Option<real>>): nat
  {
    if xs == [] then 0
    else CountSeen(xs[..|xs| - 1]) + (if xs[|xs| - 1].Some? then 1 else 0)
  }

  /** The angles of `xs`, in order, skipping the frames without one. */
  function Readings(xs: seq<Option<real>>): seq<real>
  {
    if xs == [] then []
    else Readings(xs[..|xs| - 1]) + (if xs[|xs| - 1].Some? then [xs[|xs| - 1].value] else [])
  }

  /** The clock readings of the frames whose angle is below `bound`, in order. */
  function ClocksBelow(fs: seq<Frame>, bound: real): seq<Instant>
  {
    if fs == [] then []
    else ClocksBelow(fs[..|fs| - 1], bound)
         + (if Below(fs[|fs| - 1].angle, bound) then [fs[|fs| - 1].now] else [])
  }

  /** There are exactly as many readings as frames that carry an angle, and
      at most as many frames below any bound as readings. */
  lemma {:induction false} ReadingsCount(xs: seq<Option<real>>, bound: real)
    ensures |Readings(xs)| == CountSeen(xs)
    ensures CountBelow(xs, bound) <= CountSeen(xs)
    decreases |xs|
  {
    if xs != [] {
      ReadingsCount(xs[..|xs| - 1], bound);
    }
  }

  /** Readings are drawn from the frames: if every angle carried lies in
      [lo, hi], so does every reading. */
  lemma {:induction false} ReadingsWithin(xs: seq<Option<real>>, lo: real, hi: real)
    requires forall i :: 0 <= i < |xs| && xs[i].Some? ==> lo <= xs[i].value <= hi
    ensures forall k :: 0 <= k < |Readings(xs)| ==> lo <= Readings(xs)[k] <= hi
    decreases |xs|
  {
    if xs != [] {
      ReadingsWithin(xs[..|xs| - 1], lo, hi);
    }
  }
}
