/**
  The even-odd test of tools/zone_mesh_anim.py (point_in_state), over exact reals.
 */
module Polygon {

  import opened Plane
  import opened Sequences

  // The test of one edge, from a to b, with the guard against a zero divisor.
  predicate Crosses(p: Point, a: Point, b: Point) {
    && (a.y > p.y) != (b.y > p.y)
    && p.x < (b.x - a.x) * (p.y - a.y) / (if b.y - a.y != 0.0 then b.y - a.y else 0.000001) + a.x
  }

  // Whether an odd number of edges of the open polyline s cross the ray from p.
  function Parity(p: Point, s: seq<Point>): bool {
    if |s| < 2 then false else Crosses(p, s[0], s[1]) != Parity(p, s[1..])
  }

  // The closed outline, starting and ending at its last vertex.
  function Closed(outline: seq<Point>): seq<Point> {
    if outline == [] then [] else [outline[|outline| - 1]] + outline
  }

  // Whether p lies inside the outline.
  function Inside(p: Point, outline: seq<Point>): bool {
    Parity(p, Closed(outline))
  }

  lemma {:induction false} ParitySnoc(p: Point, s: seq<Point>, b: Point)
    requires s != []
    ensures Parity(p, s + [b]) == (Parity(p, s) != Crosses(p, s[|s| - 1], b))
  {
    if |s| > 1 {
      assert (s + [b])[1..] == s[1..] + [b];
      ParitySnoc(p, s[1..], b);
    }
  }

  // Cutting a polyline at a vertex splits its parity.
  lemma {:induction false} ParityCut(p: Point, s: seq<Point>, m: Point, t: seq<Point>)
    ensures Parity(p, s + [m] + t) == (Parity(p, s + [m]) != Parity(p, [m] + t))
  {
    if s == [] {
      assert s + [m] + t == [m] + t;
    } else {
      ParityCut(p, s[1..], m, t);
      assert (s + [m] + t)[1..] == s[1..] + [m] + t;
      assert (s + [m])[1..] == s[1..] + [m];
    }
  }

  method PointInState(p: Point, outline: seq<Point>) returns (inside: bool)
    ensures inside == Inside(p, outline)
  {
    inside := false;
    var lastIndex := |outline| - 1;
    var index := 0;
    ghost var closed := Closed(outline);
    while index < |outline|
      invariant 0 <= index <= |outline|
      invariant outline != [] ==> lastIndex == if index == 0 then |outline| - 1 else index - 1
      invariant outline != [] ==> inside == Parity(p, closed[..index + 1])
      invariant outline == [] ==> !inside
    {
      var a, b := outline[lastIndex], outline[index];
      ParitySnoc(p, closed[..index + 1], b);
      assert closed[..index + 1 + 1] == closed[..index + 1] + [b];
      if Crosses(p, a, b) {
        inside := !inside;
      }
      lastIndex := index;
      index := index + 1;
    }
    assert outline != [] ==> closed[..index + 1] == closed;
  }

  // The guard never matters: an edge that meets the first condition is not horizontal.
  lemma GuardIsIdle(p: Point, a: Point, b: Point)
    requires (a.y > p.y) != (b.y > p.y)
    ensures b.y - a.y != 0.0
    ensures Crosses(p, a, b) <==> p.x < LineX(a, b, p.y)
  {
  }

  // The abscissa at height y of the line through a and b.
  function LineX(a: Point, b: Point, y: real): real
    requires a.y != b.y
  {
    (b.x - a.x) * (y - a.y) / (b.y - a.y) + a.x
  }

  // LineX is the only solution of the line's equation.
  lemma LineXSolves(a: Point, b: Point, y: real)
    requires a.y != b.y
    ensures (LineX(a, b, y) - a.x) * (b.y - a.y) == (b.x - a.x) * (y - a.y)
  {
  }

  lemma LineXIsUnique(a: Point, b: Point, y: real, x: real)
    requires a.y != b.y && (x - a.x) * (b.y - a.y) == (b.x - a.x) * (y - a.y)
    ensures x == LineX(a, b, y)
  {
    LineXSolves(a, b, y);
    CancelFactor(x - a.x, LineX(a, b, y) - a.x, b.y - a.y);
  }

  lemma CancelFactor(u: real, v: real, d: real)
    requires d != 0.0 && u * d == v * d
    ensures u == v
  {
    assert (u - v) * d == 0.0;
  }

  lemma LineXSymmetric(a: Point, b: Point, y: real)
    requires a.y != b.y
    ensures LineX(a, b, y) == LineX(b, a, y)
  {
    LineXSolves(b, a, y);
    var x := LineX(b, a, y);
    assert (x - b.x) * (a.y - b.y) == (a.x - b.x) * (y - b.y);
    assert (x - a.x) * (b.y - a.y) == (b.x - a.x) * (y - a.y);
    LineXIsUnique(a, b, y, x);
  }

  lemma CrossesSymmetric(p: Point, a: Point, b: Point)
    ensures Crosses(p, a, b) == Crosses(p, b, a)
  {
    if (a.y > p.y) != (b.y > p.y) {
      LineXSymmetric(a, b, p.y);
      GuardIsIdle(p, a, b);
      GuardIsIdle(p, b, a);
    }
  }

  // Both parts of a subdivided edge lie on its line.
  lemma LineXOfParts(a: Point, b: Point, t: real, y: real)
    requires a.y != b.y && 0.0 < t < 1.0
    ensures var m := Mix(a, b, t);
      && a.y != m.y && LineX(a, m, y) == LineX(a, b, y)
      && m.y != b.y && LineX(m, b, y) == LineX(a, b, y)
  {
    var m := Mix(a, b, t);
    var dx, dy := b.x - a.x, b.y - a.y;
    assert m.x - a.x == dx * t && m.y - a.y == dy * t;
    assert b.x - m.x == dx * (1.0 - t) && b.y - m.y == dy * (1.0 - t);
    NonZeroProduct(dy, t);
    NonZeroProduct(dy, 1.0 - t);
    var x := LineX(a, b, y);
    LineXSolves(a, b, y);
    Scale(x - a.x, dy, dx, y - a.y, t);
    LineXIsUnique(a, m, y, x);
    assert (x - m.x) * dy == dx * (y - m.y) by {
      assert (x - m.x) * dy == (x - a.x) * dy - dx * t * dy;
      assert dx * (y - m.y) == dx * (y - a.y) - dx * (dy * t);
    }
    Scale(x - m.x, dy, dx, y - m.y, 1.0 - t);
    LineXIsUnique(m, b, y, x);
  }

  lemma NonZeroProduct(u: real, v: real)
    requires u != 0.0 && v != 0.0
    ensures u * v != 0.0
  {
  }

  lemma Scale(u: real, v: real, w: real, z: real, t: real)
    requires u * v == w * z
    ensures u * (v * t) == (w * t) * z
  {
    assert u * (v * t) == (u * v) * t;
    assert (w * t) * z == (w * z) * t;
  }

  function Times(u: real, v: real): real {
    u * v
  }

  lemma TimesSign(u: real, v: real)
    requires v > 0.0
    ensures u > 0.0 ==> Times(u, v) > 0.0
    ensures u <= 0.0 ==> Times(u, v) <= 0.0
  {
  }

  lemma MixBetween(a: real, b: real, t: real, y: real)
    requires 0.0 < t < 1.0
    ensures a > y && b > y ==> Lerp(a, b, t) > y
    ensures a <= y && b <= y ==> Lerp(a, b, t) <= y
  {
    hide Lerp, Times;
    LerpLess(a, b, t, y);
    TimesSign(a - y, 1.0 - t);
    TimesSign(b - y, t);
  }

  lemma LerpLess(a: real, b: real, t: real, y: real)
    ensures Lerp(a, b, t) - y == Times(a - y, 1.0 - t) + Times(b - y, t)
  {
    assert (a - y) * (1.0 - t) == a - a * t - y + y * t;
    assert (b - y) * t == b * t - y * t;
    assert (b - a) * t == b * t - a * t;
  }

  // An edge crosses exactly when one of its two parts does.
  lemma CrossesSplits(p: Point, a: Point, b: Point, t: real)
    requires 0.0 < t < 1.0
    ensures Crosses(p, a, b) == (Crosses(p, a, Mix(a, b, t)) != Crosses(p, Mix(a, b, t), b))
  {
    var m := Mix(a, b, t);
    MixBetween(a.y, b.y, t, p.y);
    if (a.y > p.y) != (b.y > p.y) {
      LineXOfParts(a, b, t, p.y);
      GuardIsIdle(p, a, b);
      if (a.y > p.y) != (m.y > p.y) {
        GuardIsIdle(p, a, m);
      } else {
        GuardIsIdle(p, m, b);
      }
    }
  }

  // Invariances

  lemma ClosedSnoc(s: seq<Point>, x: Point)
    ensures Closed(s + [x]) == [x] + (s + [x])
  {
  }

  // Closing a + [la] + b0 + [lb] and cutting it at la.
  lemma CutClosed(p: Point, a0: seq<Point>, la: Point, b0: seq<Point>, lb: Point)
    ensures Inside(p, (a0 + [la]) + (b0 + [lb]))
            == (Parity(p, [lb] + a0 + [la]) != Parity(p, [la] + (b0 + [lb])))
  {
    hide Parity, Closed;
    assert (a0 + [la]) + (b0 + [lb]) == ((a0 + [la]) + b0) + [lb];
    ClosedSnoc((a0 + [la]) + b0, lb);
    assert [lb] + (((a0 + [la]) + b0) + [lb]) == ([lb] + a0) + [la] + (b0 + [lb]);
    ParityCut(p, [lb] + a0, la, b0 + [lb]);
  }

  lemma RotateParts(p: Point, a0: seq<Point>, la: Point, b0: seq<Point>, lb: Point)
    ensures Inside(p, (b0 + [lb]) + (a0 + [la])) == Inside(p, (a0 + [la]) + (b0 + [lb]))
  {
    hide Inside, Parity;
    CutClosed(p, a0, la, b0, lb);
    CutClosed(p, b0, lb, a0, la);
    assert [lb] + a0 + [la] == [lb] + (a0 + [la]);
    assert [la] + b0 + [lb] == [la] + (b0 + [lb]);
  }

  // Starting the outline at another vertex does not change the answer.
  lemma RotationInvariant(p: Point, outline: seq<Point>, k: nat)
    requires k <= |outline|
    ensures Inside(p, outline[k..] + outline[..k]) == Inside(p, outline)
  {
    hide Inside;
    var a, b := outline[..k], outline[k..];
    assert outline == a + b;
    if a == [] || b == [] {
      assert b + a == outline;
    } else {
      assert a == a[..|a| - 1] + [a[|a| - 1]];
      assert b == b[..|b| - 1] + [b[|b| - 1]];
      RotateParts(p, a[..|a| - 1], a[|a| - 1], b[..|b| - 1], b[|b| - 1]);
    }
  }

  lemma {:induction false} ParityReversed(p: Point, s: seq<Point>)
    ensures Parity(p, Reversed(s)) == Parity(p, s)
    ensures s != [] ==> Reversed(s)[|s| - 1] == s[0]
  {
    if |s| == 1 {
      assert Reversed(s) == s;
    } else if |s| > 1 {
      ParityReversed(p, s[1..]);
      ParitySnoc(p, Reversed(s[1..]), s[0]);
      CrossesSymmetric(p, s[0], s[1]);
    }
  }

  // Walking the outline the other way round does not change the answer.
  lemma OrientationInvariant(p: Point, outline: seq<Point>)
    ensures Inside(p, Reversed(outline)) == Inside(p, outline)
  {
    if outline != [] {
      var first, last := outline[0], outline[|outline| - 1];
      ParityReversed(p, outline);
      assert Closed(Reversed(outline)) == [first] + Reversed(outline);
      ReversedSnoc(outline, first);
      ParityReversed(p, outline + [first]);
      ParitySnoc(p, outline, first);
      assert Closed(outline)[1..] == outline;
    }
  }

  // Replacing the edge from a to b by the edges from a to m and from m to b.
  lemma SplitEdge(p: Point, before: seq<Point>, a: Point, m: Point, b: Point, after: seq<Point>)
    requires Crosses(p, a, b) == (Crosses(p, a, m) != Crosses(p, m, b))
    ensures Parity(p, before + [a] + ([m, b] + after)) == Parity(p, before + [a] + ([b] + after))
  {
    hide Crosses;
    ParityCut(p, before, a, [b] + after);
    ParityCut(p, before, a, [m, b] + after);
    assert ([a] + ([b] + after))[1..] == [b] + after;
    assert ([a] + ([m, b] + after))[1..] == [m] + ([b] + after);
    assert ([m] + ([b] + after))[1..] == [b] + after;
  }

  // Closing a polyline that ends with w, cut open at a.
  lemma ClosedAt(u: seq<Point>, a: Point, w: seq<Point>)
    requires w != []
    ensures Closed(u + [a] + w) == ([w[|w| - 1]] + u) + [a] + w
  {
    var last := w[|w| - 1];
    assert (u + [a] + w)[|u + [a] + w| - 1] == last;
    assert [last] + (u + [a] + w) == ([last] + u) + [a] + w;
  }

  lemma SplitInnerEdge(p: Point, u: seq<Point>, a: Point, m: Point, b: Point, v: seq<Point>)
    requires Crosses(p, a, b) == (Crosses(p, a, m) != Crosses(p, m, b))
    ensures Inside(p, u + [a] + ([m, b] + v)) == Inside(p, u + [a] + ([b] + v))
  {
    hide Crosses, Parity, Closed;
    ClosedAt(u, a, [b] + v);
    ClosedAt(u, a, [m, b] + v);
    var last := ([b] + v)[|v|];
    assert last == ([m, b] + v)[|v| + 1];
    SplitEdge(p, [last] + u, a, m, b, v);
  }

  lemma SplitClosingEdge(p: Point, m: Point, b: Point, v: seq<Point>)
    requires var a := ([b] + v)[|v|]; Crosses(p, a, b) == (Crosses(p, a, m) != Crosses(p, m, b))
    ensures Inside(p, [m, b] + v) == Inside(p, [b] + v)
  {
    hide Crosses, Parity;
    var a := ([b] + v)[|v|];
    assert ([m, b] + v)[|v| + 1] == a;
    SplitEdge(p, [], a, m, b, v);
    assert [] + [a] + ([b] + v) == [a] + ([b] + v);
    assert [] + [a] + ([m, b] + v) == [a] + ([m, b] + v);
  }

  // Putting a vertex in the interior of an edge, here the one that ends at outline[i], does not
  // change the answer.
  lemma SubdivisionInvariant(p: Point, outline: seq<Point>, i: nat, t: real)
    requires i < |outline| && 0.0 < t < 1.0
    ensures var a := outline[if i == 0 then |outline| - 1 else i - 1];
      Inside(p, outline[..i] + [Mix(a, outline[i], t)] + outline[i..]) == Inside(p, outline)
  {
    var a, b := outline[if i == 0 then |outline| - 1 else i - 1], outline[i];
    var m := Mix(a, b, t);
    CrossesSplits(p, a, b, t);
    hide Crosses, Mix, Inside;
    var v := outline[i + 1..];
    if i == 0 {
      assert outline == [b] + v;
      assert outline[..i] + [m] + outline[i..] == [m, b] + v;
      SplitClosingEdge(p, m, b, v);
    } else {
      var u := outline[..i - 1];
      assert outline[..i] == u + [a] && outline[i..] == [b] + v;
      assert outline == u + [a] + ([b] + v);
      assert outline[..i] + [m] + outline[i..] == u + [a] + ([m, b] + v);
      SplitInnerEdge(p, u, a, m, b, v);
    }
  }

  // Inside a rectangle are its points but those on its right and upper edge.
  lemma RectangleIsInside(p: Point, left: real, right: real, low: real, high: real)
    requires left < right && low < high
    ensures Inside(p, [Point(left, low), Point(right, low), Point(right, high), Point(left, high)]) <==>
              left <= p.x < right && low <= p.y < high
  {
    var a, b, c, d := Point(left, low), Point(right, low), Point(right, high), Point(left, high);
    hide Crosses;
    assert Closed([a, b, c, d]) == [d, a, b, c, d];
    VerticalEdge(p, d, a);
    LevelEdge(p, a, b);
    VerticalEdge(p, b, c);
    LevelEdge(p, c, d);
    var s := [d, a, b, c, d];
    assert s[1..] == [a, b, c, d] && s[1..][1..] == [b, c, d] && s[1..][1..][1..] == [c, d] && s[1..][1..][1..][1..] == [d];
    assert Parity(p, [d]) == false;
    assert Parity(p, [c, d]) == Crosses(p, c, d);
    assert Parity(p, [b, c, d]) == (Crosses(p, b, c) != Crosses(p, c, d));
    assert Parity(p, [a, b, c, d]) == (Crosses(p, a, b) != (Crosses(p, b, c) != Crosses(p, c, d)));
  }

  lemma VerticalEdge(p: Point, a: Point, b: Point)
    requires a.x == b.x
    ensures Crosses(p, a, b) <==> (a.y > p.y) != (b.y > p.y) && p.x < a.x
  {
  }

  lemma LevelEdge(p: Point, a: Point, b: Point)
    requires a.y == b.y
    ensures !Crosses(p, a, b)
  {
  }
}
