/**
 The hit test `lineAtPoint` (lines 93-110): scan the finished lines in order
 and, for each, the points at the fractions of `stride(from: 0.0, to: 1.0,
 by: 0.5)` along it; the first line with a sampled point within the radius wins.
 */
module HitTest {
  import opened Wrappers
  import opened Geometry

  /** The values of `stride(from: 0.0, to: 1.0, by: 0.5)`: the end 1.0 is excluded. */
  function SampleFractions(): (r: seq<real>)
    ensures forall k | 0 <= k < |r| :: 0.0 <= r[k] < 1.0
  {
    [0.0, 0.5]
  }

  /** The k-th sample is 0.0 + k * 0.5, and there is one for every such value below 1.0. */
  lemma SampleFractionsAreStride(k: nat)
    ensures k < |SampleFractions()| <==> (k as real) * 0.5 < 1.0
    ensures k < |SampleFractions()| ==> SampleFractions()[k] == 0.0 + (k as real) * 0.5
  {
    if k >= 2 {
      assert (k as real) * 0.5 >= 2.0 * 0.5;
    }
  }

  /** Whether one of the sampled points of l is near p (the inner loop, lines 98-106). */
  predicate Hits(l: Line, p: Point)
    ensures Near(l.begin, p) ==> Hits(l, p)
  {
    assert PointAt(l, SampleFractions()[0]) == l.begin;
    exists k | 0 <= k < |SampleFractions()| :: Near(PointAt(l, SampleFractions()[k]), p)
  }

  /** A line is hit exactly when its begin point or its midpoint is near p. */
  lemma HitsIff(l: Line, p: Point)
    ensures Hits(l, p) <==> Near(l.begin, p) || Near(PointAt(l, 0.5), p)
  {
    if Near(l.begin, p) {
      assert Near(PointAt(l, SampleFractions()[0]), p);
    }
    if Near(PointAt(l, 0.5), p) {
      assert Near(PointAt(l, SampleFractions()[1]), p);
    }
  }

  /** The end point alone never makes a hit: a long line whose end lies exactly on p is missed. */
  lemma EndPointAloneMisses()
    ensures var l := Line(Point(0.0, 0.0), Point(100.0, 0.0));
      Near(l.end, l.end) && !Hits(l, l.end)
  {
    var l := Line(Point(0.0, 0.0), Point(100.0, 0.0));
    var mid := PointAt(l, 0.5);
    assert mid == Point(50.0, 0.0);
    assert (mid.x - 100.0) * (mid.x - 100.0) == 2500.0;
    assert !Near(l.begin, l.end) && !Near(mid, l.end);
    HitsIff(l, l.end);
  }

  /** `lineAtPoint`: the position of the first line in list order that is hit, or None. */
  function FirstHit(lines: seq<Line>, p: Point): (r: Option<nat>)
    ensures r.Some? ==> r.value < |lines| && Hits(lines[r.value], p)
    ensures r.Some? ==> forall j | 0 <= j < r.value :: !Hits(lines[j], p)
    ensures r.None? <==> forall j | 0 <= j < |lines| :: !Hits(lines[j], p)
  {
    if lines == [] then None
    else if Hits(lines[0], p) then Some(0)
    else match FirstHit(lines[1..], p)
      case None => None
      case Some(i) => Some(i + 1)
  }

  /** A hit at i with no hit before it is the answer of the scan. */
  lemma FirstHitIs(lines: seq<Line>, p: Point, i: nat)
    requires i < |lines| && Hits(lines[i], p)
    requires forall j | 0 <= j < i :: !Hits(lines[j], p)
    ensures FirstHit(lines, p) == Some(i)
  {
  }

  /** Of two lines that are both hit, the one drawn first is chosen. */
  lemma EarlierLineWins(lines: seq<Line>, p: Point, i: nat, j: nat)
    requires i < j < |lines| && Hits(lines[i], p) && Hits(lines[j], p)
    ensures FirstHit(lines, p).Some? && FirstHit(lines, p).value <= i
  {
  }

  /** Lines appended after the first hit do not change the answer. */
  lemma {:induction false} FirstHitAppend(lines: seq<Line>, more: seq<Line>, p: Point)
    requires FirstHit(lines, p).Some?
    ensures FirstHit(lines + more, p) == FirstHit(lines, p)
  {
    var i := FirstHit(lines, p).value;
    var all := lines + more;
    assert all[i] == lines[i];
    assert forall j | 0 <= j < i :: all[j] == lines[j];
    FirstHitIs(all, p, i);
  }
}
