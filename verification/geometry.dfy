/**
 Points and line segments of the drawing surface. `CGPoint` becomes a pair of
 exact reals; `Line` becomes a record of its two end points, compared by value.
 */
module Geometry {

  /** A `CGPoint`; also used for the pan recognizer's translation. */
  datatype Point = Point(x: real, y: real) {

    function Plus(d: Point): Point {
      Point(x + d.x, y + d.y)
    }

    /** The vector from q to this point. */
    function Minus(q: Point): Point {
      Point(x - q.x, y - q.y)
    }
  }

  /** `CGPoint.zero`, the value the pan recognizer's translation is reset to. */
  const Origin: Point := Point(0.0, 0.0)

  /** A drawn segment. `begin` and `end` are always set before a line is used. */
  datatype Line = Line(begin: Point, end: Point)

  /** The zero-length line a touch starts with: both ends at the touch location. */
  function Dot(p: Point): (l: Line)
    ensures l.begin == p && l.end.Minus(l.begin) == Origin
  {
    Line(p, p)
  }

  /** The point a fraction t of the way from `l.begin` to `l.end`. */
  function PointAt(l: Line, t: real): (q: Point)
    ensures t == 0.0 ==> q == l.begin
  {
    Point(l.begin.x + t * (l.end.x - l.begin.x), l.begin.y + t * (l.end.y - l.begin.y))
  }

  /** Fraction 0 is the begin point, fraction 1 the end point, and fraction 0.5 lies halfway. */
  lemma PointAtFractions(l: Line)
    ensures PointAt(l, 0.0) == l.begin
    ensures PointAt(l, 1.0) == l.end
    ensures PointAt(l, 0.5).Minus(l.begin) == l.end.Minus(PointAt(l, 0.5))
  {
  }

  /** The proximity radius of the hit test. */
  const HitRadius: real := 20.0

  /** `hypot(q.x - p.x, q.y - p.y) < 20`, written without the square root. */
  predicate Near(q: Point, p: Point)
    ensures q == p ==> Near(q, p)
  {
    (q.x - p.x) * (q.x - p.x) + (q.y - p.y) * (q.y - p.y) < HitRadius * HitRadius
  }

  /** The squared test agrees with the Euclidean distance h = hypot(dx, dy) compared to the radius. */
  lemma NearIffDistanceBelowRadius(q: Point, p: Point, h: real)
    requires h >= 0.0
    requires h * h == (q.x - p.x) * (q.x - p.x) + (q.y - p.y) * (q.y - p.y)
    ensures Near(q, p) <==> h < HitRadius
  {
    if h < HitRadius {
      assert h * h <= h * HitRadius < HitRadius * HitRadius;
    } else {
      assert h * h >= h * HitRadius >= HitRadius * HitRadius;
    }
  }

  /** Both ends of l moved by d; the line keeps its direction and length. */
  function Translated(l: Line, d: Point): (r: Line)
    ensures r.begin.Minus(l.begin) == d && r.end.Minus(l.end) == d
    ensures r.end.Minus(r.begin) == l.end.Minus(l.begin)
  {
    Line(l.begin.Plus(d), l.end.Plus(d))
  }

  /** Two successive translations equal one translation by their sum. */
  lemma TranslatedTwice(l: Line, d1: Point, d2: Point)
    ensures Translated(Translated(l, d1), d2) == Translated(l, d1.Plus(d2))
  {
  }

  /** Translating by the reset value leaves a line where it is. */
  lemma TranslatedByOrigin(l: Line)
    ensures Translated(l, Origin) == l
  {
  }
}
