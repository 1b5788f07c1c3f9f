/** Even-odd ray casting over a vertex ring, `point_in_polygon` in
    `services/mod-border-transit/app/domain.py`, in exact arithmetic. */
module PointInPolygon {
  datatype Vertex = Vertex(x: real, y: real)

  type Ring = seq<Vertex>

  datatype Edge = Edge(a: Vertex, b: Vertex)

  /** One end is above the ray's line, the other on it or below. */
  predicate Straddles(e: Edge, p: Vertex) {
    (e.a.y > p.y) != (e.b.y > p.y)
  }

  /** Where the edge meets the ray's line. */
  function CrossingX(e: Edge, p: Vertex): real
    requires e.a.y != e.b.y
  {
    (e.b.x - e.a.x) * (p.y - e.a.y) / (e.b.y - e.a.y) + e.a.x
  }

  predicate Crosses(e: Edge, p: Vertex) {
    Straddles(e, p) && p.x < CrossingX(e, p)
  }

  /** Edge `i` joins vertex `i` to the one before it, around the ring. */
  function Edges(ring: Ring): seq<Edge> {
    seq(|ring|, i requires 0 <= i < |ring| => Edge(ring[i], ring[if i == 0 then |ring| - 1 else i - 1]))
  }

  /** Whether an odd number of the edges cross. */
  function Odd(edges: seq<Edge>, p: Vertex): bool {
    if edges == [] then false else Odd(edges[..|edges| - 1], p) != Crosses(edges[|edges| - 1], p)
  }

  predicate Inside(ring: Ring, p: Vertex) {
    |ring| >= 3 && Odd(Edges(ring), p)
  }

  method PointInRing(p: Vertex, ring: Ring) returns (inside: bool)
    ensures inside == Inside(ring, p)
  {
    inside := false;
    var n := |ring|;
    if n < 3 {
      return false;
    }
    var j := n - 1;
    for i := 0 to n
      invariant j == if i == 0 then n - 1 else i - 1
      invariant inside == Odd(Edges(ring)[..i], p)
    {
      assert Edges(ring)[..i + 1][..i] == Edges(ring)[..i];
      var vi, vj := ring[i], ring[j];
      assert Edges(ring)[i] == Edge(vi, vj);
      hide Edges, CrossingX;
      if (vi.y > p.y) != (vj.y > p.y) {
        var xCross := CrossingX(Edge(vi, vj), p);
        if p.x < xCross {
          inside := !inside;
        }
      }
      j := i;
    }
    assert Edges(ring)[..n] == Edges(ring);
  }

  // ---------------------------------------------------------------------------
  // Edges
  // ---------------------------------------------------------------------------

  function Flip(e: Edge): Edge { Edge(e.b, e.a) }

  /** The fraction of the way from `a` to `b` at which the edge meets the line. */
  function Fraction(e: Edge, p: Vertex): real
    requires e.a.y != e.b.y
  {
    (p.y - e.a.y) / (e.b.y - e.a.y)
  }

  lemma {:induction false} MulDiv(a: real, b: real, d: real)
    requires d != 0.0
    ensures a * b / d == a * (b / d)
  {
  }

  lemma {:induction false} CrossingIs(e: Edge, p: Vertex)
    requires e.a.y != e.b.y
    ensures CrossingX(e, p) == e.a.x + Times(e.b.x - e.a.x, Fraction(e, p))
  {
    MulDiv(e.b.x - e.a.x, p.y - e.a.y, e.b.y - e.a.y);
  }

  lemma {:induction false} Complement(u: real, v: real)
    requires u + v != 0.0
    ensures u / (u + v) + v / (u + v) == 1.0
  {
    assert u / (u + v) + v / (u + v) == (u + v) / (u + v);
  }

  lemma {:induction false} NegateBoth(u: real, d: real)
    requires d != 0.0
    ensures (-u) / (-d) == u / d
  {
  }

  lemma {:induction false} FlipFraction(e: Edge, p: Vertex)
    requires e.a.y != e.b.y
    ensures Fraction(Flip(e), p) == 1.0 - Fraction(e, p)
  {
    var u, v := p.y - e.a.y, e.b.y - p.y;
    Complement(u, v);
    NegateBoth(v, u + v);
    assert u + v == e.b.y - e.a.y && p.y - e.b.y == -v && e.a.y - e.b.y == -(u + v);
  }

  /** An edge crosses whichever way it is drawn. */
  lemma {:induction false} FlipCrosses(e: Edge, p: Vertex)
    ensures Crosses(Flip(e), p) == Crosses(e, p)
  {
    if e.a.y != e.b.y {
      CrossingIs(e, p);
      CrossingIs(Flip(e), p);
      FlipFraction(e, p);
      var t, d := Fraction(e, p), e.b.x - e.a.x;
      TimesComplement(d, t);
      hide CrossingX, Fraction, Times;
      assert e.a.x - e.b.x == -d;
    }
  }

  /** A straddling edge meets the line between its ends. */
  lemma {:induction false} FractionInUnit(e: Edge, p: Vertex)
    requires Straddles(e, p)
    ensures 0.0 <= Fraction(e, p) <= 1.0
  {
    var u, d := p.y - e.a.y, e.b.y - e.a.y;
    if e.b.y > p.y {
      assert 0.0 <= u <= d && d > 0.0;
      UnitRatio(u, d);
    } else {
      assert 0.0 <= -u <= -d && -d > 0.0;
      UnitRatio(-u, -d);
      NegateBoth(u, d);
    }
  }

  lemma {:induction false} UnitRatio(u: real, d: real)
    requires 0.0 <= u <= d && d > 0.0
    ensures 0.0 <= u / d <= 1.0
  {
  }

  function Times(x: real, y: real): real { x * y }

  lemma {:induction false} TimesUnit(d: real, t: real)
    requires d >= 0.0 && 0.0 <= t <= 1.0
    ensures 0.0 <= Times(d, t) <= d
  {
  }

  lemma {:induction false} TimesNegated(d: real, t: real)
    ensures Times(-d, t) == -Times(d, t)
  {
  }

  lemma {:induction false} TimesComplement(d: real, t: real)
    ensures Times(-d, 1.0 - t) == -d + Times(d, t)
  {
  }

  lemma {:induction false} Between(a: real, b: real, t: real, lo: real, hi: real)
    requires 0.0 <= t <= 1.0 && lo <= a <= hi && lo <= b <= hi
    ensures lo <= a + Times(b - a, t) <= hi
  {
    hide Times;
    if a <= b {
      TimesUnit(b - a, t);
    } else {
      TimesUnit(a - b, t);
      TimesNegated(a - b, t);
      assert b - a == -(a - b);
    }
  }

  // ---------------------------------------------------------------------------
  // Parity
  // ---------------------------------------------------------------------------

  lemma {:induction false} OddAppend(a: seq<Edge>, b: seq<Edge>, p: Vertex)
    ensures Odd(a + b, p) == (Odd(a, p) != Odd(b, p))
    decreases |b|
  {
    hide Crosses;
    if b == [] {
      assert a + b == a;
    } else {
      var n := |b| - 1;
      assert (a + b)[..|a + b| - 1] == a + b[..n];
      OddAppend(a, b[..n], p);
    }
  }

  lemma {:induction false} OddOne(e: Edge, p: Vertex)
    ensures Odd([e], p) == Crosses(e, p)
  {
    assert [e][..0] == [];
  }

  function FlipAll(edges: seq<Edge>): seq<Edge> {
    seq(|edges|, i requires 0 <= i < |edges| => Flip(edges[|edges| - 1 - i]))
  }

  /** Drawing the edges backwards, in reverse order, changes nothing. */
  lemma {:induction false} OddFlipAll(edges: seq<Edge>, p: Vertex)
    ensures Odd(FlipAll(edges), p) == Odd(edges, p)
    decreases |edges|
  {
    if edges != [] {
      var n := |edges| - 1;
      assert FlipAll(edges) == [Flip(edges[n])] + FlipAll(edges[..n]);
      OddAppend([Flip(edges[n])], FlipAll(edges[..n]), p);
      OddOne(Flip(edges[n]), p);
      FlipCrosses(edges[n], p);
      OddFlipAll(edges[..n], p);
    }
  }

  function Rotate(ring: Ring, k: nat): Ring
    requires k <= |ring|
  {
    ring[k..] + ring[..k]
  }

  /** The answer does not depend on which vertex the ring starts at. */
  lemma {:induction false} RotationKeepsInside(ring: Ring, k: nat, p: Vertex)
    requires k <= |ring|
    ensures Inside(Rotate(ring, k), p) == Inside(ring, p)
  {
    var edges := Edges(ring);
    assert Edges(Rotate(ring, k)) == edges[k..] + edges[..k];
    OddAppend(edges[k..], edges[..k], p);
    OddAppend(edges[..k], edges[k..], p);
    assert edges[..k] + edges[k..] == edges;
  }

  function Reverse(ring: Ring): Ring {
    seq(|ring|, i requires 0 <= i < |ring| => ring[|ring| - 1 - i])
  }

  lemma {:induction false} ReversedEdges(ring: Ring)
    requires ring != []
    ensures Edges(Reverse(ring)) == [Flip(Edges(ring)[0])] + FlipAll(Edges(ring)[1..])
  {
    var edges, n := Edges(ring), |ring|;
    var left, right := Edges(Reverse(ring)), [Flip(edges[0])] + FlipAll(edges[1..]);
    forall i | 0 < i < n ensures left[i] == right[i] {
      assert right[i] == FlipAll(edges[1..])[i - 1] == Flip(edges[1..][n - 1 - i]) == Flip(edges[n - i]);
      assert left[i] == Edge(ring[n - 1 - i], ring[n - i]);
    }
    assert left[0] == right[0];
  }

  /** Nor on the direction it is drawn in. */
  lemma {:induction false} ReversalKeepsInside(ring: Ring, p: Vertex)
    ensures Inside(Reverse(ring), p) == Inside(ring, p)
  {
    var edges := Edges(ring);
    if ring != [] {
      ReversedEdges(ring);
      OddAppend([Flip(edges[0])], FlipAll(edges[1..]), p);
      OddOne(Flip(edges[0]), p);
      FlipCrosses(edges[0], p);
      OddFlipAll(edges[1..], p);
      OddOne(edges[0], p);
      OddAppend([edges[0]], edges[1..], p);
      assert [edges[0]] + edges[1..] == edges;
    }
  }

  // ---------------------------------------------------------------------------
  // Outside the bounding box
  // ---------------------------------------------------------------------------

  ghost predicate InBox(ring: Ring, p: Vertex) {
    && (exists i :: 0 <= i < |ring| && ring[i].x <= p.x) && (exists i :: 0 <= i < |ring| && p.x <= ring[i].x)
    && (exists i :: 0 <= i < |ring| && ring[i].y <= p.y) && (exists i :: 0 <= i < |ring| && p.y <= ring[i].y)
  }

  lemma {:induction false} NoneCross(edges: seq<Edge>, p: Vertex)
    requires forall i :: 0 <= i < |edges| ==> !Crosses(edges[i], p)
    ensures !Odd(edges, p)
    decreases |edges|
  {
    hide Crosses;
    if edges != [] {
      var n := |edges| - 1;
      assert forall i :: 0 <= i < n ==> edges[..n][i] == edges[i];
      NoneCross(edges[..n], p);
    }
  }

  /** Walking the ring, straddling edges alternate between going up and coming down, so around the whole
      ring there is an even number of them. */
  lemma {:induction false} StraddlesAlternate(ring: Ring, k: nat, p: Vertex)
    requires 0 < k <= |ring|
    requires forall i :: 0 <= i < |ring| ==> (Crosses(Edges(ring)[i], p) <==> Straddles(Edges(ring)[i], p))
    ensures Odd(Edges(ring)[..k], p) == ((ring[k - 1].y > p.y) != (ring[|ring| - 1].y > p.y))
    decreases k
  {
    hide Crosses;
    var edges := Edges(ring);
    assert edges[..k][..k - 1] == edges[..k - 1];
    if k == 1 {
      assert edges[..0] == [];
      assert Odd(edges[..0], p) == false;
    } else {
      StraddlesAlternate(ring, k - 1, p);
    }
  }

  lemma {:induction false} LeftOfEdge(e: Edge, p: Vertex)
    requires p.x < e.a.x && p.x < e.b.x
    ensures Crosses(e, p) <==> Straddles(e, p)
  {
    if Straddles(e, p) {
      FractionInUnit(e, p);
      CrossingIs(e, p);
      hide CrossingX, Fraction, Times;
      var lo := if e.a.x < e.b.x then e.a.x else e.b.x;
      Between(e.a.x, e.b.x, Fraction(e, p), lo, e.a.x + e.b.x - lo);
    }
  }

  lemma {:induction false} RightOfEdge(e: Edge, p: Vertex)
    requires p.x >= e.a.x && p.x >= e.b.x
    ensures !Crosses(e, p)
  {
    if Straddles(e, p) {
      FractionInUnit(e, p);
      CrossingIs(e, p);
      hide CrossingX, Fraction, Times;
      var lo := if e.a.x < e.b.x then e.a.x else e.b.x;
      Between(e.a.x, e.b.x, Fraction(e, p), lo, e.a.x + e.b.x - lo);
    }
  }

  /** No point outside the bounding box of the vertices is inside. */
  lemma {:induction false} OutsideBoxIsOutside(ring: Ring, p: Vertex)
    requires !InBox(ring, p)
    ensures !Inside(ring, p)
  {
    var edges := Edges(ring);
    if ring != [] {
      if forall i :: 0 <= i < |ring| ==> p.x < ring[i].x {
        forall i | 0 <= i < |ring| ensures Crosses(edges[i], p) <==> Straddles(edges[i], p) {
          LeftOfEdge(edges[i], p);
        }
        hide Crosses;
        StraddlesAlternate(ring, |ring|, p);
        assert edges[..|ring|] == edges;
      } else {
        forall i | 0 <= i < |ring| ensures !Crosses(edges[i], p) {
          if forall k :: 0 <= k < |ring| ==> ring[k].x < p.x { RightOfEdge(edges[i], p); }
        }
        NoneCross(edges, p);
      }
    }
  }

  // ---------------------------------------------------------------------------
  // On an edge
  // ---------------------------------------------------------------------------

  /** The edge meets the ray's line at the point itself. */
  predicate Through(e: Edge, p: Vertex) {
    Straddles(e, p) && CrossingX(e, p) == p.x
  }

  /** Whether an odd number of the edges pass through the point: one inside an edge, and one where two
      edges meet in passing, two or none at a tip. */
  function OddThrough(edges: seq<Edge>, p: Vertex): bool {
    if edges == [] then false else OddThrough(edges[..|edges| - 1], p) != Through(edges[|edges| - 1], p)
  }

  /** No edge meets the line of `p` at another point less than `d` away. */
  ghost predicate Clear(edges: seq<Edge>, p: Vertex, d: real) {
    forall i :: 0 <= i < |edges| && Straddles(edges[i], p) ==>
      CrossingX(edges[i], p) == p.x || CrossingX(edges[i], p) <= p.x - d || CrossingX(edges[i], p) >= p.x + d
  }

  /** There is always such a distance. */
  lemma {:induction false} ClearAround(edges: seq<Edge>, p: Vertex) returns (d: real)
    ensures d > 0.0 && Clear(edges, p, d)
    decreases |edges|
  {
    hide CrossingX;
    if edges == [] {
      d := 1.0;
    } else {
      var n, e := |edges| - 1, edges[|edges| - 1];
      d := ClearAround(edges[..n], p);
      assert forall i :: 0 <= i < n ==> edges[..n][i] == edges[i];
      if Straddles(e, p) {
        var gap := CrossingX(e, p) - p.x;
        if gap > 0.0 && gap < d { d := gap; } else if gap < 0.0 && -gap < d { d := -gap; }
      }
    }
  }

  lemma {:induction false} CrossesNearby(e: Edge, p: Vertex, x: real, d: real)
    requires Straddles(e, p) ==>
      CrossingX(e, p) == p.x || CrossingX(e, p) <= p.x - d || CrossingX(e, p) >= p.x + d
    requires p.x - d < x < p.x + d
    ensures Crosses(e, Vertex(x, p.y)) == (if x < p.x then Crosses(e, p) != Through(e, p) else Crosses(e, p))
  {
    if Straddles(e, p) { assert CrossingX(e, Vertex(x, p.y)) == CrossingX(e, p); }
    hide CrossingX;
  }

  lemma {:induction false} OddNearby(edges: seq<Edge>, p: Vertex, x: real, d: real)
    requires Clear(edges, p, d) && p.x - d < x < p.x + d
    ensures Odd(edges, Vertex(x, p.y)) == (if x < p.x then Odd(edges, p) != OddThrough(edges, p) else Odd(edges, p))
    decreases |edges|
  {
    hide CrossingX, Crosses, Through;
    if edges != [] {
      var n := |edges| - 1;
      assert forall i :: 0 <= i < n ==> edges[..n][i] == edges[i];
      CrossesNearby(edges[n], p, x, d);
      OddNearby(edges[..n], p, x, d);
    }
  }

  /** Every point is decided as the points just right of it are, so a point on an edge counts as inside
      exactly when the polygon lies to its right. The points just left of it are decided the other way
      exactly when an odd number of edges pass through it. This holds of any ring, at any point. */
  lemma {:induction false} EdgePointTakesRightSide(ring: Ring, p: Vertex) returns (d: real)
    requires |ring| >= 3
    ensures d > 0.0
    ensures forall x :: p.x <= x < p.x + d ==> Inside(ring, Vertex(x, p.y)) == Inside(ring, p)
    ensures forall x :: p.x - d < x < p.x ==>
      Inside(ring, Vertex(x, p.y)) == (Inside(ring, p) != OddThrough(Edges(ring), p))
  {
    var edges := Edges(ring);
    d := ClearAround(edges, p);
    forall x | p.x - d < x < p.x + d
      ensures Odd(edges, Vertex(x, p.y)) == (if x < p.x then Odd(edges, p) != OddThrough(edges, p) else Odd(edges, p))
    {
      OddNearby(edges, p, x, d);
    }
    hide Odd, OddThrough, Edges;
  }

  // ---------------------------------------------------------------------------
  // Rectangles and unions
  // ---------------------------------------------------------------------------

  function Rectangle(x0: real, y0: real, x1: real, y1: real): Ring {
    [Vertex(x0, y0), Vertex(x1, y0), Vertex(x1, y1), Vertex(x0, y1)]
  }

  lemma {:induction false} TimesZero(t: real)
    ensures Times(0.0, t) == 0.0
  {
  }

  lemma {:induction false} VerticalCrosses(x: real, y: real, y': real, p: Vertex)
    ensures Crosses(Edge(Vertex(x, y), Vertex(x, y')), p) <==> ((y > p.y) != (y' > p.y) && p.x < x)
  {
    var e := Edge(Vertex(x, y), Vertex(x, y'));
    if y != y' {
      CrossingIs(e, p);
      TimesZero(Fraction(e, p));
      hide CrossingX, Fraction, Times;
    }
  }

  /** On an axis-aligned rectangle, wherever its ring starts and whichever way it runs, the answer is
      half-open membership: left and lower sides in, right and upper sides out. */
  lemma {:induction false} RectangleIsHalfOpen(x0: real, y0: real, x1: real, y1: real, p: Vertex, k: nat, reversed: bool)
    requires x0 < x1 && y0 < y1 && k <= 4
    ensures var ring := Rotate(Rectangle(x0, y0, x1, y1), k);
      Inside(if reversed then Reverse(ring) else ring, p) <==> x0 <= p.x < x1 && y0 <= p.y < y1
  {
    var ring := Rectangle(x0, y0, x1, y1);
    RotationKeepsInside(ring, k, p);
    ReversalKeepsInside(Rotate(ring, k), p);
    var e := Edges(ring);
    VerticalCrosses(x0, y0, y1, p);
    VerticalCrosses(x1, y1, y0, p);
    assert !Crosses(e[1], p) && !Crosses(e[3], p);
    hide Crosses, Rotate, Reverse;
    assert e == [e[0]] + [e[1]] + [e[2]] + [e[3]];
    OddAppend([e[0]] + [e[1]] + [e[2]], [e[3]], p);
    OddAppend([e[0]] + [e[1]], [e[2]], p);
    OddAppend([e[0]], [e[1]], p);
    OddOne(e[0], p);
    OddOne(e[1], p);
    OddOne(e[2], p);
    OddOne(e[3], p);
  }

  /** Cutting a ring in two along a chord: a point is inside the whole exactly when it is inside one of
      the two parts and not both. */
  lemma {:induction false} ChordSplitsInside(ring: Ring, k: nat, p: Vertex)
    requires 2 <= k <= |ring| - 2
    ensures Inside(ring, p) == (Inside(ring[..k + 1], p) != Inside(ring[k..] + [ring[0]], p))
  {
    var edges, n := Edges(ring), |ring|;
    var first, second := ring[..k + 1], ring[k..] + [ring[0]];
    var chord := Edge(ring[0], ring[k]);
    assert Edges(first) == [chord] + edges[1..k + 1];
    assert Edges(second) == [Flip(chord)] + edges[k + 1..] + [edges[0]];
    assert edges == [edges[0]] + (edges[1..k + 1] + edges[k + 1..]);
    OddAppend([chord], edges[1..k + 1], p);
    OddAppend([Flip(chord)] + edges[k + 1..], [edges[0]], p);
    OddAppend([Flip(chord)], edges[k + 1..], p);
    OddAppend([edges[0]], edges[1..k + 1] + edges[k + 1..], p);
    OddAppend(edges[1..k + 1], edges[k + 1..], p);
    OddOne(chord, p);
    OddOne(Flip(chord), p);
    FlipCrosses(chord, p);
  }
}
