/**
  Walking along a polyline (tools/zone_mesh_anim.py, point_along_polyline), over exact reals and
  with an arbitrary non-negative distance in place of the Euclidean one.
 */
module Polyline {
  import opened Plane

  ghost predicate NonNegative(dist: (Point, Point) -> real) {
    forall a, b :: dist(a, b) >= 0.0
  }

  // The length of the first k segments.
  function Length(points: seq<Point>, dist: (Point, Point) -> real, k: nat): real
    requires k < |points|
  {
    if k == 0 then 0.0 else Length(points, dist, k - 1) + dist(points[k - 1], points[k])
  }

  lemma {:induction false} LengthMonotone(points: seq<Point>, dist: (Point, Point) -> real, j: nat, k: nat)
    requires NonNegative(dist) && j <= k < |points|
    ensures Length(points, dist, j) <= Length(points, dist, k)
  {
    if j < k {
      LengthMonotone(points, dist, j, k - 1);
    }
  }

  // The part of a length d up to the parameter local
  function Part(local: real, d: real): real {
    local * d
  }

  /** A place on a polyline: a segment and a parameter on it. */
  datatype Place = Place(segment: nat, local: real)

  // The place lies on the polyline, s units from its start.
  predicate AtArc(points: seq<Point>, dist: (Point, Point) -> real, place: Place, s: real) {
    && place.segment + 1 < |points| && 0.0 <= place.local <= 1.0
    && var a, b := points[place.segment], points[place.segment + 1];
       s == Length(points, dist, place.segment) + Part(place.local, dist(a, b))
  }

  // No earlier segment reaches s, and a segment of no length is not entered.
  predicate IsFirst(points: seq<Point>, dist: (Point, Point) -> real, place: Place, s: real) {
    && place.segment + 1 < |points|
    && (place.segment > 0 ==> Length(points, dist, place.segment) < s)
    && (dist(points[place.segment], points[place.segment + 1]) == 0.0 ==> place.local == 0.0)
  }

  lemma LengthStep(points: seq<Point>, dist: (Point, Point) -> real, k: nat)
    requires k + 1 < |points|
    ensures Length(points, dist, k + 1) == Length(points, dist, k) + dist(points[k], points[k + 1])
  {
    assert points[k + 1 - 1] == points[k];
  }

  lemma QuotientFits(u: real, v: real)
    requires 0.0 <= u <= v && v > 0.0
    ensures 0.0 <= u / v <= 1.0 && Part(u / v, v) == u
  {
  }

  // The local parameter of the segment in which the walk stops.
  function LocalAt(covered: real, segment: real, target: real): real {
    if segment != 0.0 then (target - covered) / segment else 0.0
  }

  lemma StopHere(points: seq<Point>, dist: (Point, Point) -> real, k: nat, target: real)
    requires NonNegative(dist) && k + 1 < |points|
    requires k > 0 ==> Length(points, dist, k) < target
    requires k == 0 ==> 0.0 <= target
    requires Length(points, dist, k) + dist(points[k], points[k + 1]) >= target
    ensures var place := Place(k, LocalAt(Length(points, dist, k), dist(points[k], points[k + 1]), target));
      AtArc(points, dist, place, target) && IsFirst(points, dist, place, target)
  {
    var segment := dist(points[k], points[k + 1]);
    if segment != 0.0 {
      QuotientFits(target - Length(points, dist, k), segment);
    }
  }

  method TotalLength(points: seq<Point>, dist: (Point, Point) -> real) returns (total: real)
    requires points != []
    ensures total == Length(points, dist, |points| - 1)
  {
    total := 0.0;
    var i := 0;
    while i + 1 < |points|
      invariant 0 <= i < |points|
      invariant total == Length(points, dist, i)
    {
      LengthStep(points, dist, i);
      total := total + dist(points[i], points[i + 1]);
      i := i + 1;
    }
  }

  // The second loop of point_along_polyline.  A target within the length is always found, so the
  // code after the loop is never reached.
  method Walk(points: seq<Point>, target: real, dist: (Point, Point) -> real) returns (p: Point, ghost place: Place)
    requires |points| > 1 && NonNegative(dist)
    requires 0.0 <= target <= Length(points, dist, |points| - 1)
    ensures AtArc(points, dist, place, target) && IsFirst(points, dist, place, target)
    ensures p == Mix(points[place.segment], points[place.segment + 1], place.local)
  {
    hide AtArc, IsFirst, Mix, LocalAt, NonNegative, Length;
    place := Place(0, 0.0);
    p := points[0];
    var covered := 0.0;
    var k := 0;
    LengthZero(points, dist);
    while k + 1 < |points|
      invariant 0 <= k < |points|
      invariant covered == Length(points, dist, k)
      invariant k > 0 ==> covered < target
    {
      var segment := dist(points[k], points[k + 1]);
      if covered + segment >= target {
        StopHere(points, dist, k, target);
        place := Place(k, LocalAt(covered, segment, target));
        p := Mix(points[k], points[k + 1], LocalAt(covered, segment, target));
        return;
      }
      LengthStep(points, dist, k);
      covered := covered + segment;
      k := k + 1;
    }
    assert false;
  }

  // point_along_polyline.  With a positive length the returned point is at arc position
  // clamp(fraction) * length, in the first segment that reaches it.
  method PointAlongPolyline(points: seq<Point>, fraction: real, dist: (Point, Point) -> real)
    returns (p: Point, ghost place: Place)
    requires points != [] && NonNegative(dist)
    ensures Length(points, dist, |points| - 1) <= 0.0 ==> p == points[0]
    ensures var total := Length(points, dist, |points| - 1);
      total > 0.0 ==> && AtArc(points, dist, place, Part(Clamp(fraction), total))
                      && IsFirst(points, dist, place, Part(Clamp(fraction), total))
                      && p == Mix(points[place.segment], points[place.segment + 1], place.local)
  {
    hide AtArc, IsFirst, NonNegative, Mix, Clamp, Part;
    place := Place(0, 0.0);
    p := points[0];
    if |points| == 1 {
      return;
    }
    var total := TotalLength(points, dist);
    if total <= 0.0 {
      return;
    }
    ClampFits(fraction, total);
    p, place := Walk(points, Part(Clamp(fraction), total), dist);
  }

  lemma LengthZero(points: seq<Point>, dist: (Point, Point) -> real)
    requires points != []
    ensures Length(points, dist, 0) == 0.0
  {
  }

  lemma ClampFits(fraction: real, total: real)
    requires total > 0.0
    ensures 0.0 <= Part(Clamp(fraction), total) <= total
  {
    hide Part;
    PartOfSegment(Clamp(fraction), total);
  }

  predicate NotBefore(a: Place, b: Place) {
    a.segment < b.segment || (a.segment == b.segment && a.local <= b.local)
  }

  // The walk never goes back: a larger arc position is a later place, and equal positions are the
  // same place, so the place is determined by the fraction.
  lemma PlaceIsMonotone(points: seq<Point>, dist: (Point, Point) -> real, a: Place, s: real, b: Place, t: real)
    requires NonNegative(dist) && s <= t
    requires AtArc(points, dist, a, s) && IsFirst(points, dist, a, s)
    requires AtArc(points, dist, b, t) && IsFirst(points, dist, b, t)
    ensures NotBefore(a, b)
    ensures s == t ==> a == b
  {
    hide AtArc, Length;
    ArcBound(points, dist, a, s);
    ArcBound(points, dist, b, t);
    if a.segment == b.segment {
      SameSegment(points, dist, a, s, b, t);
    } else if b.segment < a.segment {
      LengthMonotone(points, dist, b.segment + 1, a.segment);
    } else {
      LengthMonotone(points, dist, a.segment + 1, b.segment);
    }
  }

  // A larger fraction is a larger arc position.
  lemma FractionIsMonotone(f: real, g: real, total: real)
    requires f <= g && total > 0.0
    ensures Part(Clamp(f), total) <= Part(Clamp(g), total)
  {
    NotNegative(Clamp(g) - Clamp(f), total);
    assert (Clamp(g) - Clamp(f)) * total == Clamp(g) * total - Clamp(f) * total;
  }

  // Along a polyline of positive length, the place of a larger fraction is never before that of a smaller one.
  lemma PlacesFollowFractions(points: seq<Point>, dist: (Point, Point) -> real, total: real, f: real, a: Place,
                              g: real, b: Place)
    requires NonNegative(dist) && f <= g && total > 0.0
    requires AtArc(points, dist, a, Part(Clamp(f), total)) && IsFirst(points, dist, a, Part(Clamp(f), total))
    requires AtArc(points, dist, b, Part(Clamp(g), total)) && IsFirst(points, dist, b, Part(Clamp(g), total))
    ensures NotBefore(a, b)
  {
    hide AtArc, IsFirst, Part, Clamp, NonNegative;
    FractionIsMonotone(f, g, total);
    PlaceIsMonotone(points, dist, a, Part(Clamp(f), total), b, Part(Clamp(g), total));
  }

  lemma ArcBound(points: seq<Point>, dist: (Point, Point) -> real, place: Place, s: real)
    requires NonNegative(dist) && AtArc(points, dist, place, s)
    ensures place.segment + 1 < |points|
    ensures Length(points, dist, place.segment) <= s <= Length(points, dist, place.segment + 1)
  {
    hide Part, Length;
    LengthStep(points, dist, place.segment);
    var d := dist(points[place.segment], points[place.segment + 1]);
    assert d >= 0.0;
    PartOfSegment(place.local, d);
  }

  lemma SameSegment(points: seq<Point>, dist: (Point, Point) -> real, a: Place, s: real, b: Place, t: real)
    requires NonNegative(dist) && s <= t && a.segment == b.segment
    requires AtArc(points, dist, a, s) && IsFirst(points, dist, a, s)
    requires AtArc(points, dist, b, t) && IsFirst(points, dist, b, t)
    ensures NotBefore(a, b) && (s == t ==> a == b)
  {
    hide Part, Length;
    var d := dist(points[a.segment], points[a.segment + 1]);
    assert d >= 0.0;
    assert Part(a.local, d) <= Part(b.local, d) && (s == t ==> Part(a.local, d) == Part(b.local, d));
    if d > 0.0 {
      CompareParts(a.local, b.local, d);
    }
  }

  lemma PartOfSegment(local: real, d: real)
    requires 0.0 <= local <= 1.0 && d >= 0.0
    ensures 0.0 <= Part(local, d) <= d
  {
    NotNegative(local, d);
    NotNegative(1.0 - local, d);
    assert (1.0 - local) * d == d - local * d;
  }

  lemma NotNegative(u: real, v: real)
    requires u >= 0.0 && v >= 0.0
    ensures u * v >= 0.0
  {
  }

  lemma CompareParts(x: real, y: real, d: real)
    requires d > 0.0
    ensures Part(x, d) <= Part(y, d) ==> x <= y
    ensures Part(x, d) == Part(y, d) ==> x == y
  {
    if x > y {
      assert (x - y) * d > 0.0;
    }
    if y > x {
      assert (y - x) * d > 0.0;
    }
  }
}
