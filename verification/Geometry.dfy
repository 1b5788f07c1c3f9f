/** Shoelace area and bounding boxes, `geospatial/geometry-rs/src/lib.rs`, in exact arithmetic. A ring
    lists its points with the first repeated at the end. */
module Geometry {
  datatype Point = Point(x: real, y: real)

  type Ring = seq<Point>

  datatype Bbox = Bbox(minX: real, minY: real, maxX: real, maxY: real)

  datatype Option<T> = None | Some(value: T)

  // ---------------------------------------------------------------------------
  // Area
  // ---------------------------------------------------------------------------

  function Cross(p: Point, q: Point): real {
    p.x * q.y - q.x * p.y
  }

  function CrossSum(ring: Ring): real {
    if |ring| < 2 then 0.0 else CrossSum(ring[..|ring| - 1]) + Cross(ring[|ring| - 2], ring[|ring| - 1])
  }

  function RingArea(ring: Ring): real {
    CrossSum(ring) / 2.0
  }

  method ComputeRingArea(ring: Ring) returns (area: real)
    ensures area == RingArea(ring)
  {
    if |ring| < 2 {
      return 0.0;
    }
    var sum := 0.0;
    for i := 0 to |ring| - 1
      invariant sum == CrossSum(ring[..i + 1])
    {
      assert ring[..i + 2][..i + 1] == ring[..i + 1];
      sum := sum + Cross(ring[i], ring[i + 1]);
    }
    assert ring[..|ring|] == ring;
    return sum / 2.0;
  }

  function Abs(x: real): real { if x < 0.0 then -x else x }

  function HolesArea(rings: seq<Ring>): real {
    if |rings| < 2 then 0.0 else HolesArea(rings[..|rings| - 1]) + Abs(RingArea(rings[|rings| - 1]))
  }

  /** The exterior less the holes, never negative. */
  method PolygonArea(rings: seq<Ring>) returns (area: real)
    ensures var net := if rings == [] then 0.0 else Abs(RingArea(rings[0])) - HolesArea(rings);
      area == if net > 0.0 then net else 0.0
  {
    area := 0.0;
    for i := 0 to |rings|
      invariant area == if i == 0 then 0.0 else Abs(RingArea(rings[0])) - HolesArea(rings[..i])
    {
      assert rings[..i + 1][..i] == rings[..i];
      var a := ComputeRingArea(rings[i]);
      if i == 0 {
        area := area + Abs(a);
      } else {
        area := area - Abs(a);
      }
    }
    assert rings[..|rings|] == rings;
    if area < 0.0 {
      area := 0.0;
    }
  }

  predicate IsClosed(ring: Ring) {
    |ring| > 0 && ring[0] == ring[|ring| - 1]
  }

  function Shift(p: Point, dx: real, dy: real): Point {
    Point(p.x + dx, p.y + dy)
  }

  function Translate(ring: Ring, dx: real, dy: real): Ring {
    seq(|ring|, i requires 0 <= i < |ring| => Shift(ring[i], dx, dy))
  }

  lemma {:induction false} CrossShift(p: Point, q: Point, dx: real, dy: real)
    ensures Cross(Shift(p, dx, dy), Shift(q, dx, dy)) == Cross(p, q) + Cross(Point(dx, dy), q) - Cross(Point(dx, dy), p)
  {
  }

  /** What a translation adds along an open path depends on its ends alone. */
  lemma {:induction false} TranslatedSum(ring: Ring, dx: real, dy: real)
    requires ring != []
    ensures var d := Point(dx, dy);
      CrossSum(Translate(ring, dx, dy)) == CrossSum(ring) + Cross(d, ring[|ring| - 1]) - Cross(d, ring[0])
    decreases |ring|
  {
    if |ring| > 1 {
      var n := |ring| - 1;
      TranslatedSum(ring[..n], dx, dy);
      CrossShift(ring[n - 1], ring[n], dx, dy);
      assert Translate(ring, dx, dy)[..n] == Translate(ring[..n], dx, dy);
      hide Cross;
    }
  }

  /** The area of a closed ring does not depend on where the ring lies. */
  lemma {:induction false} TranslationKeepsArea(ring: Ring, dx: real, dy: real)
    requires IsClosed(ring)
    ensures RingArea(Translate(ring, dx, dy)) == RingArea(ring)
  {
    TranslatedSum(ring, dx, dy);
    hide Cross;
  }

  lemma {:induction false} CrossSumJoin(a: Ring, b: Ring)
    requires a != [] && b != [] && a[|a| - 1] == b[0]
    ensures CrossSum(a + b[1..]) == CrossSum(a) + CrossSum(b)
    decreases |b|
  {
    hide Cross;
    var all, n := a + b[1..], |b| - 1;
    if n == 0 {
      assert all == a;
    } else {
      assert all[..|all| - 1] == a + b[..n][1..];
      CrossSumJoin(a, b[..n]);
      assert all[|all| - 1] == b[n] && all[|all| - 2] == b[n - 1];
    }
  }

  /** The same closed ring written from its vertex `k` on. */
  function StartAt(ring: Ring, k: nat): Ring
    requires k < |ring|
  {
    ring[k..] + ring[1..k + 1]
  }

  /** The area of a closed ring does not depend on the vertex it starts at. */
  lemma {:induction false} StartKeepsArea(ring: Ring, k: nat)
    requires IsClosed(ring) && k < |ring|
    ensures RingArea(StartAt(ring, k)) == RingArea(ring)
  {
    var front, back := ring[..k + 1], ring[k..];
    assert front[1..] == ring[1..k + 1];
    CrossSumJoin(back, front);
    CrossSumJoin(front, back);
    assert front + back[1..] == ring;
  }

  function Backwards(ring: Ring): Ring {
    seq(|ring|, i requires 0 <= i < |ring| => ring[|ring| - 1 - i])
  }

  /** Walking a ring the other way negates its area. */
  lemma {:induction false} ReversalNegatesArea(ring: Ring)
    ensures RingArea(Backwards(ring)) == -RingArea(ring)
    decreases |ring|
  {
    if |ring| > 1 {
      var n := |ring| - 1;
      ReversalNegatesArea(ring[..n]);
      var last := [ring[n], ring[n - 1]];
      assert Backwards(ring) == last + Backwards(ring[..n])[1..];
      CrossSumJoin(last, Backwards(ring[..n]));
      assert last[..1] == [ring[n]];
      assert CrossSum(last[..1]) == 0.0;
      assert Cross(ring[n], ring[n - 1]) == -Cross(ring[n - 1], ring[n]);
      hide Cross;
      assert CrossSum(last) == Cross(ring[n], ring[n - 1]);
    }
  }

  /** Twice the area of the box with these corners: the sign convention is counter-clockwise positive. */
  lemma {:induction false} BoxArea(x0: real, y0: real, x1: real, y1: real)
    ensures RingArea([Point(x0, y0), Point(x1, y0), Point(x1, y1), Point(x0, y1), Point(x0, y0)]) == (x1 - x0) * (y1 - y0)
  {
    var r := [Point(x0, y0), Point(x1, y0), Point(x1, y1), Point(x0, y1), Point(x0, y0)];
    assert r[..4][..3] == r[..3] && r[..3][..2] == r[..2] && r[..2][..1] == r[..1];
    assert CrossSum(r[..1]) == 0.0;
    assert CrossSum(r[..2]) == Cross(r[0], r[1]);
    assert CrossSum(r[..3]) == CrossSum(r[..2]) + Cross(r[1], r[2]);
    assert CrossSum(r[..4]) == CrossSum(r[..3]) + Cross(r[2], r[3]);
    assert CrossSum(r) == CrossSum(r[..4]) + Cross(r[3], r[4]);
  }

  /** Half the cross product of two sides: positive when `a`, `b`, `c` turn counter-clockwise, and half base
      times height in absolute value. */
  function Triangle(a: Point, b: Point, c: Point): real {
    ((b.x - a.x) * (c.y - a.y) - (c.x - a.x) * (b.y - a.y)) / 2.0
  }

  lemma {:induction false} CrossSumTwo(p: Point, q: Point)
    ensures CrossSum([p, q]) == Cross(p, q)
  {
    assert [p, q][..1] == [p];
  }

  lemma {:induction false} CrossSumFour(a: Point, b: Point, c: Point)
    ensures CrossSum([a, b, c, a]) == Cross(a, b) + Cross(b, c) + Cross(c, a)
  {
    var r := [a, b, c, a];
    assert r[..3] == [a, b, c] && r[..3][..2] == [a, b];
    CrossSumTwo(a, b);
    hide Cross;
    assert CrossSum(r[..3]) == CrossSum(r[..3][..2]) + Cross(b, c);
  }

  /** A triangle has the area of a triangle, whichever way its sides slant. */
  lemma {:induction false} TriangleArea(a: Point, b: Point, c: Point)
    ensures RingArea([a, b, c, a]) == Triangle(a, b, c)
  {
    CrossSumFour(a, b, c);
    hide CrossSum;
  }

  /** The part of a closed ring on the far side of the chord from vertex `i` to vertex `k`. */
  function CutOff(ring: Ring, i: nat, k: nat): Ring
    requires i <= k < |ring|
  {
    ring[i..k + 1] + [ring[i]]
  }

  /** What the chord leaves of it. */
  function CutAway(ring: Ring, i: nat, k: nat): Ring
    requires i <= k < |ring|
  {
    ring[..i + 1] + ring[k..]
  }

  /** Cutting along any chord divides the area. */
  lemma {:induction false} ChordDividesArea(ring: Ring, i: nat, k: nat)
    requires i <= k < |ring|
    ensures RingArea(ring) == RingArea(CutOff(ring, i, k)) + RingArea(CutAway(ring, i, k))
  {
    hide CrossSum, Cross;
    var front, mid, back := ring[..i + 1], ring[i..k + 1], ring[k..];
    var p, q := ring[i], ring[k];
    Pieces(ring, i, k);
    CrossSumJoin(front, mid);
    CrossSumJoin(front + mid[1..], back);
    CrossSumJoin(mid, [q, p]);
    CrossSumJoin(front, [p, q]);
    CrossSumJoin(front + [q], back);
    CrossSumTwo(p, q);
    CrossSumTwo(q, p);
    CrossBack(p, q);
  }

  lemma {:induction false} CrossBack(p: Point, q: Point)
    ensures Cross(p, q) == -Cross(q, p)
  {
  }

  lemma {:induction false} Pieces(ring: Ring, i: nat, k: nat)
    requires i <= k < |ring|
    ensures var front, mid, back := ring[..i + 1], ring[i..k + 1], ring[k..];
      && (front + mid[1..]) + back[1..] == ring && (front + mid[1..])[k] == back[0] == ring[k] && |front + mid[1..]| == k + 1
      && mid + [ring[k], ring[i]][1..] == CutOff(ring, i, k)
      && [ring[i], ring[k]][1..] == [ring[k]] && (front + [ring[k]]) + back[1..] == CutAway(ring, i, k)
  {
  }

  /** The triangles that vertex 0 spans with each edge up to vertex `n`. */
  function Fan(ring: Ring, n: nat): real
    requires n < |ring|
    decreases n
  {
    if n == 0 then 0.0 else Fan(ring, n - 1) + Triangle(ring[0], ring[n - 1], ring[n])
  }

  /** The area of a closed ring is the sum of the signed triangles that fan out from any vertex of it. */
  lemma {:induction false} AreaIsFan(ring: Ring, n: nat)
    requires n < |ring|
    ensures RingArea(ring[..n + 1] + [ring[0]]) == Fan(ring, n)
    ensures IsClosed(ring) && n == |ring| - 1 ==> RingArea(ring) == Fan(ring, n)
    decreases n
  {
    var o, r := ring[0], ring[..n + 1] + [ring[0]];
    if n == 0 {
      assert r == [o, o] && ring[..1] == [o];
      CrossSumTwo(o, o);
    } else {
      AreaIsFan(ring, n - 1);
      ChordDividesArea(r, 0, n - 1);
      assert CutOff(r, 0, n - 1) == ring[..n] + [o];
      assert CutAway(r, 0, n - 1) == [o, ring[n - 1], ring[n], o];
      TriangleArea(o, ring[n - 1], ring[n]);
    }
    if IsClosed(ring) && n == |ring| - 1 {
      assert ring[..n + 1] == ring && r[..|r| - 1] == ring && r[n] == o && r[n + 1] == o;
      assert CrossSum(r) == CrossSum(ring) + Cross(o, o);
    }
  }

  // ---------------------------------------------------------------------------
  // Bounding boxes
  // ---------------------------------------------------------------------------

  predicate In(p: Point, b: Bbox) {
    b.minX <= p.x <= b.maxX && b.minY <= p.y <= b.maxY
  }

  predicate Contains(b: Bbox, points: seq<Point>) {
    forall i :: 0 <= i < |points| ==> In(points[i], b)
  }

  predicate Within(a: Bbox, b: Bbox) {
    b.minX <= a.minX && a.maxX <= b.maxX && b.minY <= a.minY && a.maxY <= b.maxY
  }

  /** The least box: it contains every point, and every box that does contains it. */
  ghost predicate Least(b: Bbox, points: seq<Point>) {
    Contains(b, points) && forall c :: Contains(c, points) ==> Within(b, c)
  }

  function Flatten(rings: seq<Ring>): seq<Point> {
    if rings == [] then [] else Flatten(rings[..|rings| - 1]) + rings[|rings| - 1]
  }

  predicate Valid(b: Bbox) {
    b.minX <= b.maxX && b.minY <= b.maxY
  }

  lemma {:induction false} LeastIsValid(b: Bbox, points: seq<Point>)
    requires Least(b, points) && points != []
    ensures Valid(b)
  {
    assert In(points[0], b);
  }

  /** The box of all points of the rings, if there are any. */
  method FromRings(rings: seq<Ring>) returns (r: Option<Bbox>)
    ensures r.None? <==> Flatten(rings) == []
    ensures r.Some? ==> Least(r.value, Flatten(rings)) && Valid(r.value)
  {
    var points := Flatten(rings);
    if |points| == 0 {
      return None;
    }
    var b := Bbox(points[0].x, points[0].y, points[0].x, points[0].y);
    for i := 1 to |points|
      invariant Least(b, points[..i])
    {
      ghost var before := b;
      var p := points[i];
      if p.x < b.minX { b := b.(minX := p.x); }
      if p.y < b.minY { b := b.(minY := p.y); }
      if p.x > b.maxX { b := b.(maxX := p.x); }
      if p.y > b.maxY { b := b.(maxY := p.y); }
      LeastGrows(before, b, points, i);
    }
    assert points[..|points|] == points;
    LeastIsValid(b, points);
    return Some(b);
  }

  lemma {:induction false} LeastGrows(b: Bbox, b': Bbox, points: seq<Point>, i: nat)
    requires i < |points| && Least(b, points[..i])
    requires b' == Bbox(
      if points[i].x < b.minX then points[i].x else b.minX, if points[i].y < b.minY then points[i].y else b.minY,
      if points[i].x > b.maxX then points[i].x else b.maxX, if points[i].y > b.maxY then points[i].y else b.maxY)
    ensures Least(b', points[..i + 1])
  {
    var before, after := points[..i], points[..i + 1];
    assert after[i] == points[i] && forall k :: 0 <= k < i ==> after[k] == before[k];
    assert Contains(b', after);
    forall c | Contains(c, after) ensures Within(b', c) {
      assert Contains(c, before);
      assert In(points[i], c);
    }
  }

  predicate BboxIntersects(a: Bbox, b: Bbox) {
    a.minX <= b.maxX && b.minX <= a.maxX && a.minY <= b.maxY && b.minY <= a.maxY
  }

  /** Two boxes intersect if and only if they have a point in common, edges and corners included. */
  lemma {:induction false} IntersectIffSharedPoint(a: Bbox, b: Bbox)
    requires Valid(a) && Valid(b)
    ensures BboxIntersects(a, b) <==> exists p :: In(p, a) && In(p, b)
  {
    var corner := Point(if a.minX > b.minX then a.minX else b.minX, if a.minY > b.minY then a.minY else b.minY);
    assert BboxIntersects(a, b) ==> In(corner, a) && In(corner, b);
  }
}
