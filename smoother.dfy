/** The landmark smoother of the frame loop (VirtualPiano.tsx): a one-pole
    filter with blend factor 0.5 per hand slot, landmark and axis, reset to the
    raw frame whenever the number of hands changes. */
module Smoother {
  import opened Common

  const SMOOTHING_FACTOR: real := 0.5

  /** Every hand the detector reports carries this many landmarks. */
  const LANDMARKS_PER_HAND: nat := 21

  /** A normalised landmark; the detector may leave the visibility out. */
  datatype Landmark = Landmark(x: real, y: real, z: real, visibility: Option<real>)

  type Hand = seq<Landmark>

  predicate WellFormed(hands: seq<Hand>) {
    forall i :: 0 <= i < |hands| ==> |hands[i]| == LANDMARKS_PER_HAND
  }

  /** One filter step for one landmark: each coordinate is
      `factor * new + (1 - factor) * old`; visibility comes from the new point,
      1 when it has none. */
  function Blend(newPt: Landmark, oldPt: Landmark): Landmark {
    Landmark(
      SMOOTHING_FACTOR * newPt.x + (1.0 - SMOOTHING_FACTOR) * oldPt.x,
      SMOOTHING_FACTOR * newPt.y + (1.0 - SMOOTHING_FACTOR) * oldPt.y,
      SMOOTHING_FACTOR * newPt.z + (1.0 - SMOOTHING_FACTOR) * oldPt.z,
      Some(newPt.visibility.GetOr(1.0)))
  }

  /** The smoothed hands after one frame, from the previous smoothed hands and
      the raw detection. */
  function Smooth(prev: seq<Hand>, raw: seq<Hand>): (r: seq<Hand>)
    requires WellFormed(prev) && WellFormed(raw)
    ensures WellFormed(r) && |r| == |raw|
    ensures |raw| == 0 ==> r == []
    ensures |raw| > 0 && |prev| != |raw| ==> r == raw
  {
    if |raw| == 0 then []
    else if |prev| != |raw| then raw
    else seq(|raw|, i requires 0 <= i < |raw| =>
           seq(|raw[i]|, j requires 0 <= j < |raw[i]| => Blend(raw[i][j], prev[i][j])))
  }

  /** `b` lies between `a` and `c` (in either order). */
  predicate Between(a: real, b: real, c: real) {
    (a <= b <= c) || (c <= b <= a)
  }

  /** With an unchanged hand count every coordinate moves half of the way from
      its previous smoothed value to the new raw value, and the visibility is
      the new point's (1 when absent). */
  lemma SmoothMovesHalfway(prev: seq<Hand>, raw: seq<Hand>, i: nat, j: nat)
    requires WellFormed(prev) && WellFormed(raw)
    requires |prev| == |raw| && i < |raw| && j < LANDMARKS_PER_HAND
    ensures var p := Smooth(prev, raw)[i][j];
      && p.x - raw[i][j].x == (prev[i][j].x - raw[i][j].x) / 2.0
      && p.y - raw[i][j].y == (prev[i][j].y - raw[i][j].y) / 2.0
      && p.z - raw[i][j].z == (prev[i][j].z - raw[i][j].z) / 2.0
      && Between(prev[i][j].x, p.x, raw[i][j].x)
      && Between(prev[i][j].y, p.y, raw[i][j].y)
      && Between(prev[i][j].z, p.z, raw[i][j].z)
      && p.visibility == Some(raw[i][j].visibility.GetOr(1.0))
  {
  }

  /** Every landmark of `hands` reports a visibility. */
  predicate HasVisibility(hands: seq<Hand>) {
    forall i, j :: 0 <= i < |hands| && 0 <= j < |hands[i]| ==> hands[i][j].visibility.Some?
  }

  /** The same coordinates, hand by hand and landmark by landmark. */
  predicate SamePositions(a: seq<Hand>, b: seq<Hand>) {
    && |a| == |b|
    && (forall i :: 0 <= i < |a| ==> |a[i]| == |b[i]|)
    && (forall i, j :: 0 <= i < |a| && 0 <= j < |a[i]| ==>
          a[i][j].x == b[i][j].x && a[i][j].y == b[i][j].y && a[i][j].z == b[i][j].z)
  }

  /** A constant input is a fixed point: smoothing a frame against itself keeps
      every position, keeps the whole frame when every visibility is present,
      and a second step changes nothing. */
  lemma ConstantInputIsFixedPoint(raw: seq<Hand>)
    requires WellFormed(raw)
    ensures SamePositions(Smooth(raw, raw), raw)
    ensures HasVisibility(raw) ==> Smooth(raw, raw) == raw
    ensures Smooth(Smooth(raw, raw), raw) == Smooth(raw, raw)
  {
    var s: seq<Hand> := Smooth(raw, raw);
    if |raw| > 0 {
      forall i: nat, j: nat | i < |raw| && j < |raw[i]|
        ensures s[i][j].x == raw[i][j].x && s[i][j].y == raw[i][j].y && s[i][j].z == raw[i][j].z
      {
        SmoothMovesHalfway(raw, raw, i, j);
      }
      if HasVisibility(raw) {
        forall i: nat | i < |raw| ensures s[i] == raw[i] {
          assert forall j :: 0 <= j < |raw[i]| ==> s[i][j] == raw[i][j];
        }
      }
      var t: seq<Hand> := Smooth(s, raw);
      forall i: nat | i < |raw| ensures t[i] == s[i] {
        assert forall j :: 0 <= j < |raw[i]| ==> t[i][j] == s[i][j];
      }
    }
  }

  /** `k` frames of the same raw input, starting from smoothed state `s0`. */
  function SmoothIter(s0: seq<Hand>, raw: seq<Hand>, k: nat): (r: seq<Hand>)
    requires WellFormed(s0) && WellFormed(raw)
    ensures WellFormed(r) && (k > 0 || |s0| == |raw| ==> |r| == |raw|)
  {
    if k == 0 then s0 else Smooth(SmoothIter(s0, raw, k - 1), raw)
  }

  function Pow2(k: nat): (p: real)
    ensures p >= 1.0
  {
    if k == 0 then 1.0 else 2.0 * Pow2(k - 1)
  }

  /** One frame of one coordinate: blending toward `r` turns a gap of
      `(a - r) / q` into `(a - r) / 2q`. */
  lemma HalveGap(a: real, b: real, p: real, r: real, q: real)
    requires q >= 1.0 && b - r == (a - r) / q
    requires p == SMOOTHING_FACTOR * r + (1.0 - SMOOTHING_FACTOR) * b
    ensures p - r == (a - r) / (2.0 * q)
  {
    var g := a - r;
    assert (b - r) * q == g;
    assert (p - r) * (2.0 * q) == g;
  }

  /** The landmark at (i, j) after one frame with an unchanged hand count. */
  lemma SmoothAt(prev: seq<Hand>, raw: seq<Hand>, i: nat, j: nat)
    requires WellFormed(prev) && WellFormed(raw)
    requires |prev| == |raw| && i < |raw| && j < LANDMARKS_PER_HAND
    ensures Smooth(prev, raw)[i][j] == Blend(raw[i][j], prev[i][j])
  {
  }

  /** One of the three coordinates of a landmark. */
  datatype Axis = X | Y | Z

  function Coord(p: Landmark, axis: Axis): real {
    match axis
    case X => p.x
    case Y => p.y
    case Z => p.z
  }

  /** Blending acts on each coordinate separately. */
  lemma BlendCoord(newPt: Landmark, oldPt: Landmark, axis: Axis)
    ensures Coord(Blend(newPt, oldPt), axis) ==
      SMOOTHING_FACTOR * Coord(newPt, axis) + (1.0 - SMOOTHING_FACTOR) * Coord(oldPt, axis)
  {
  }

  /** Under a constant input with an unchanged hand count, the gap between a
      smoothed coordinate and its raw value halves every frame: after `k`
      frames it is the initial gap divided by 2^k. */
  lemma {:induction false} ConvergesOnAxis(s0: seq<Hand>, raw: seq<Hand>, k: nat, i: nat, j: nat, axis: Axis)
    requires WellFormed(s0) && WellFormed(raw)
    requires |s0| == |raw| && i < |raw| && j < LANDMARKS_PER_HAND
    ensures Coord(SmoothIter(s0, raw, k)[i][j], axis) - Coord(raw[i][j], axis)
         == (Coord(s0[i][j], axis) - Coord(raw[i][j], axis)) / Pow2(k)
  {
    if k > 0 {
      var prev := SmoothIter(s0, raw, k - 1);
      ConvergesOnAxis(s0, raw, k - 1, i, j, axis);
      SmoothAt(prev, raw, i, j);
      BlendCoord(raw[i][j], prev[i][j], axis);
      HalveGap(Coord(s0[i][j], axis), Coord(prev[i][j], axis), Coord(SmoothIter(s0, raw, k)[i][j], axis),
               Coord(raw[i][j], axis), Pow2(k - 1));
    }
  }
}
