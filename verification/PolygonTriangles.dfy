/** Slanted edges: a crossing is a question of sides, and on every triangle the answer is membership. With
    the chord law this fixes the answer on every polygon that can be cut into triangles. */
module PolygonTriangles {
  import opened PointInPolygon

  /** Positive when `p` lies to the left of the line from `a` to `b`, negative to its right: twice the signed
      area of the triangle `a`, `b`, `p`. */
  function Side(a: Vertex, b: Vertex, p: Vertex): real {
    Times(a.x - p.x, b.y - p.y) - Times(b.x - p.x, a.y - p.y)
  }

  // ---------------------------------------------------------------------------
  // Crossing is a side
  // ---------------------------------------------------------------------------

  lemma {:induction false} QuotientAbove(q: real, n: real, d: real)
    requires d > 0.0
    ensures q < n / d <==> Times(q, d) < n
  {
    assert n / d * d == n;
    if q < n / d { ProductGrows(q, n / d, d); } else { ProductGrows(n / d, q, d); }
  }

  lemma {:induction false} ProductGrows(q: real, r: real, d: real)
    requires d > 0.0
    ensures q < r ==> q * d < r * d
    ensures q <= r ==> q * d <= r * d
  {
    assert r * d - q * d == (r - q) * d;
  }

  lemma {:induction false} SideIs(a: Vertex, b: Vertex, p: Vertex)
    ensures Side(a, b, p) == (b.x - a.x) * (p.y - a.y) - Times(p.x - a.x, b.y - a.y)
    ensures Side(b, a, p) == -Side(a, b, p)
  {
  }

  /** An upward edge is crossed by the ray exactly when the point is to its left and level with it, the lower end
      counting as level and the upper not. */
  lemma {:induction false} UpwardCrosses(a: Vertex, b: Vertex, p: Vertex)
    requires a.y <= p.y < b.y
    ensures Crosses(Edge(a, b), p) <==> Side(a, b, p) > 0.0
  {
    SideIs(a, b, p);
    QuotientAbove(p.x - a.x, (b.x - a.x) * (p.y - a.y), b.y - a.y);
    hide Side, Times;
  }

  /** Crossing, for any edge, as a question of sides. */
  lemma {:induction false} CrossesIffSide(a: Vertex, b: Vertex, p: Vertex)
    ensures Crosses(Edge(a, b), p) <==>
      (a.y <= p.y < b.y && Side(a, b, p) > 0.0) || (b.y <= p.y < a.y && Side(a, b, p) < 0.0)
  {
    if a.y <= p.y < b.y {
      UpwardCrosses(a, b, p);
    } else if b.y <= p.y < a.y {
      UpwardCrosses(b, a, p);
      FlipCrosses(Edge(a, b), p);
      SideIs(a, b, p);
    }
  }

  // ---------------------------------------------------------------------------
  // One vertex against two
  // ---------------------------------------------------------------------------

  /** The sides of the three edges, weighted with the heights of the opposite vertices, balance. */
  lemma {:induction false} SidesBalance(x: Vertex, y: Vertex, z: Vertex, p: Vertex)
    ensures Times(Side(y, z, p), x.y - p.y) + Times(Side(z, x, p), y.y - p.y) + Times(Side(x, y, p), z.y - p.y) == 0.0
  {
    Expand(y.x - p.x, y.y - p.y, z.x - p.x, z.y - p.y, x.y - p.y);
    Expand(z.x - p.x, z.y - p.y, x.x - p.x, x.y - p.y, y.y - p.y);
    Expand(x.x - p.x, x.y - p.y, y.x - p.x, y.y - p.y, z.y - p.y);
  }

  lemma {:induction false} Expand(a: real, b: real, c: real, d: real, h: real)
    ensures Times(Times(a, d) - Times(c, b), h) == a * d * h - c * b * h
  {
  }

  lemma {:induction false} SignOf(s: real, h: real)
    ensures s > 0.0 && h > 0.0 ==> Times(s, h) > 0.0
    ensures s < 0.0 && h > 0.0 ==> Times(s, h) < 0.0
    ensures s > 0.0 && h < 0.0 ==> Times(s, h) < 0.0
    ensures s < 0.0 && h < 0.0 ==> Times(s, h) > 0.0
    ensures s == 0.0 || h == 0.0 ==> Times(s, h) == 0.0
  {
  }

  /** Twice the signed area of the triangle: positive when it is drawn counter-clockwise. */
  function Turn(x: Vertex, y: Vertex, z: Vertex): real { Side(x, y, z) }

  lemma {:induction false} SidesSum(x: Vertex, y: Vertex, z: Vertex, p: Vertex)
    ensures Side(x, y, p) + Side(y, z, p) + Side(z, x, p) == Turn(x, y, z)
  {
    SideIs(x, y, p);
    SideIs(y, z, p);
    SideIs(z, x, p);
    SideIs(x, y, z);
    Spread(x.x, x.y, y.x, y.y, p);
    Spread(y.x, y.y, z.x, z.y, p);
    Spread(z.x, z.y, x.x, x.y, p);
    Spread(x.x, x.y, y.x, y.y, z);
  }

  lemma {:induction false} Spread(ax: real, ay: real, bx: real, by_: real, p: Vertex)
    ensures Side(Vertex(ax, ay), Vertex(bx, by_), p) == ax * by_ - bx * ay - p.y * ax + p.y * bx - p.x * by_ + p.x * ay
  {
  }

  lemma {:induction false} TurnRotates(x: Vertex, y: Vertex, z: Vertex)
    ensures Turn(y, z, x) == Turn(x, y, z) && Turn(z, x, y) == Turn(x, y, z)
  {
    SidesSum(x, y, z, x);
    SidesSum(x, y, z, y);
    SideIs(x, x, y);
    SideIs(z, y, x);
    SideIs(x, y, x);
    SideIs(z, x, x);
    SideIs(x, y, y);
    SideIs(y, z, y);
  }

  /** `p` is to the left of the line from `a` to `b`, or on it and the line runs down, or level to the right: so that of
      two triangles that share an edge exactly one has the points on it. */
  predicate Covers(a: Vertex, b: Vertex, p: Vertex) {
    Side(a, b, p) > 0.0 || (Side(a, b, p) == 0.0 && (b.y < a.y || (b.y == a.y && b.x > a.x)))
  }

  predicate InTriangle(x: Vertex, y: Vertex, z: Vertex, p: Vertex) {
    Covers(x, y, p) && Covers(y, z, p) && Covers(z, x, p)
  }

  lemma {:induction false} TriangleEdges(x: Vertex, y: Vertex, z: Vertex, p: Vertex)
    ensures Inside([x, y, z], p) == ((Crosses(Edge(x, y), p) != Crosses(Edge(y, z), p)) != Crosses(Edge(z, x), p))
  {
    var e := Edges([x, y, z]);
    assert e == [Edge(x, z)] + [Edge(y, x)] + [Edge(z, y)];
    OddAppend([Edge(x, z)] + [Edge(y, x)], [Edge(z, y)], p);
    OddAppend([Edge(x, z)], [Edge(y, x)], p);
    OddOne(Edge(x, z), p);
    OddOne(Edge(y, x), p);
    OddOne(Edge(z, y), p);
    FlipCrosses(Edge(x, z), p);
    FlipCrosses(Edge(y, x), p);
    FlipCrosses(Edge(z, y), p);
    hide Crosses, Odd, Edges;
  }

  /** A level edge seen from a vertex off its line. */
  lemma {:induction false} LevelTurn(y: Vertex, z: Vertex, x: Vertex)
    requires y.y == z.y
    ensures Side(y, z, x) == Times(z.x - y.x, x.y - y.y)
  {
    SideIs(y, z, x);
  }

  /** `x` lies above the ray's line, `y` and `z` do not. */
  lemma {:induction false} PeakAbove(x: Vertex, y: Vertex, z: Vertex, p: Vertex)
    requires Turn(x, y, z) >= 0.0 && y.y <= p.y < x.y && z.y <= p.y
    ensures Inside([x, y, z], p) <==> Turn(x, y, z) > 0.0 && InTriangle(x, y, z, p)
  {
    TriangleEdges(x, y, z, p);
    CrossesIffSide(x, y, p);
    CrossesIffSide(y, z, p);
    CrossesIffSide(z, x, p);
    SidesSum(x, y, z, p);
    SidesBalance(x, y, z, p);
    SignOf(Side(y, z, p), x.y - p.y);
    SignOf(Side(z, x, p), y.y - p.y);
    SignOf(Side(x, y, p), z.y - p.y);
    TurnRotates(x, y, z);
    if y.y == z.y {
      LevelTurn(y, z, x);
      SignOf(z.x - y.x, x.y - y.y);
    }
    hide Side, Times, Crosses, Inside;
  }

  /** `x` does not lie above the ray's line, `y` and `z` do. */
  lemma {:induction false} PeakBelow(x: Vertex, y: Vertex, z: Vertex, p: Vertex)
    requires Turn(x, y, z) >= 0.0 && x.y <= p.y < y.y && p.y < z.y
    ensures Inside([x, y, z], p) <==> Turn(x, y, z) > 0.0 && InTriangle(x, y, z, p)
  {
    TriangleEdges(x, y, z, p);
    CrossesIffSide(x, y, p);
    CrossesIffSide(y, z, p);
    CrossesIffSide(z, x, p);
    SidesSum(x, y, z, p);
    SidesBalance(x, y, z, p);
    SignOf(Side(y, z, p), x.y - p.y);
    SignOf(Side(z, x, p), y.y - p.y);
    SignOf(Side(x, y, p), z.y - p.y);
    hide Side, Times, Crosses, Inside;
  }

  /** A triangle has none of the points at or above the height of all its vertices: here with `p` left of the edge
      opposite to `x`. */
  lemma {:induction false} NoTopVertex(x: Vertex, y: Vertex, z: Vertex, p: Vertex)
    requires Turn(x, y, z) > 0.0 && x.y <= p.y && y.y <= p.y && z.y <= p.y && Side(y, z, p) > 0.0
    ensures !InTriangle(x, y, z, p)
  {
    SidesBalance(x, y, z, p);
    SignOf(Side(y, z, p), x.y - p.y);
    SignOf(Side(z, x, p), y.y - p.y);
    SignOf(Side(x, y, p), z.y - p.y);
    TurnRotates(x, y, z);
    if z.y == x.y {
      LevelTurn(z, x, y);
      SignOf(x.x - z.x, y.y - z.y);
    }
    if x.y == y.y {
      LevelTurn(x, y, z);
      LevelTurn(x, y, p);
      SignOf(y.x - x.x, z.y - x.y);
      SignOf(y.x - x.x, p.y - x.y);
    }
    hide Side, Times;
  }

  lemma {:induction false} InTriangleRotates(x: Vertex, y: Vertex, z: Vertex, p: Vertex)
    ensures InTriangle(y, z, x, p) == InTriangle(x, y, z, p)
    ensures Inside([y, z, x], p) == Inside([x, y, z], p)
    ensures Turn(y, z, x) == Turn(x, y, z)
  {
    TurnRotates(x, y, z);
    RotationKeepsInside([x, y, z], 1, p);
    assert Rotate([x, y, z], 1) == [y, z, x];
  }

  lemma {:induction false} AllAboveOrNone(x: Vertex, y: Vertex, z: Vertex, p: Vertex)
    requires Turn(x, y, z) > 0.0 && (x.y > p.y) == (y.y > p.y) == (z.y > p.y)
    ensures !Inside([x, y, z], p) && !InTriangle(x, y, z, p)
  {
    TriangleEdges(x, y, z, p);
    CrossesIffSide(x, y, p);
    CrossesIffSide(y, z, p);
    CrossesIffSide(z, x, p);
    SidesSum(x, y, z, p);
    SidesBalance(x, y, z, p);
    SignOf(Side(y, z, p), x.y - p.y);
    SignOf(Side(z, x, p), y.y - p.y);
    SignOf(Side(x, y, p), z.y - p.y);
    hide Side, Times, Crosses, Inside;
    if x.y <= p.y {
      InTriangleRotates(x, y, z, p);
      InTriangleRotates(y, z, x, p);
      if Side(y, z, p) > 0.0 { NoTopVertex(x, y, z, p); }
      if Side(z, x, p) > 0.0 { NoTopVertex(y, z, x, p); }
      if Side(x, y, p) > 0.0 { NoTopVertex(z, x, y, p); }
    }
  }

  lemma {:induction false} AnyPeak(x: Vertex, y: Vertex, z: Vertex, p: Vertex)
    requires Turn(x, y, z) >= 0.0 && (x.y > p.y) != (y.y > p.y) && (y.y > p.y) == (z.y > p.y)
    ensures Inside([x, y, z], p) <==> Turn(x, y, z) > 0.0 && InTriangle(x, y, z, p)
  {
    hide Inside, InTriangle, Turn;
    if x.y > p.y { PeakAbove(x, y, z, p); } else { PeakBelow(x, y, z, p); }
  }

  /** On every triangle drawn counter-clockwise, slanted or not, the answer is membership: left of all three edges,
      where points on an edge belong to the triangle to their right, or above. A flat triangle has no points. */
  lemma {:induction false} TriangleIsHalfOpen(x: Vertex, y: Vertex, z: Vertex, p: Vertex)
    requires Turn(x, y, z) >= 0.0
    ensures Inside([x, y, z], p) <==> Turn(x, y, z) > 0.0 && InTriangle(x, y, z, p)
  {
    InTriangleRotates(x, y, z, p);
    InTriangleRotates(y, z, x, p);
    hide InTriangle, Turn;
    if (x.y > p.y) != (y.y > p.y) && (y.y > p.y) == (z.y > p.y) {
      AnyPeak(x, y, z, p);
    } else if (y.y > p.y) != (z.y > p.y) && (z.y > p.y) == (x.y > p.y) {
      AnyPeak(y, z, x, p);
    } else if (z.y > p.y) != (x.y > p.y) && (x.y > p.y) == (y.y > p.y) {
      AnyPeak(z, x, y, p);
    } else {
      if Turn(x, y, z) > 0.0 { AllAboveOrNone(x, y, z, p); }
      TriangleEdges(x, y, z, p);
      hide Inside;
    }
  }

  /** Whichever way it is drawn: points strictly inside are inside, points strictly outside are not. */
  lemma {:induction false} TriangleHasItsInterior(x: Vertex, y: Vertex, z: Vertex, p: Vertex)
    ensures Side(x, y, p) > 0.0 && Side(y, z, p) > 0.0 && Side(z, x, p) > 0.0 ==> Inside([x, y, z], p)
    ensures Side(x, y, p) < 0.0 && Side(y, z, p) < 0.0 && Side(z, x, p) < 0.0 ==> Inside([x, y, z], p)
    ensures Inside([x, y, z], p) ==>
      (Side(x, y, p) >= 0.0 && Side(y, z, p) >= 0.0 && Side(z, x, p) >= 0.0) ||
      (Side(x, y, p) <= 0.0 && Side(y, z, p) <= 0.0 && Side(z, x, p) <= 0.0)
  {
    SidesSum(x, y, z, p);
    SidesSum(z, y, x, p);
    SideIs(x, y, p);
    SideIs(y, z, p);
    SideIs(z, x, p);
    ReversalKeepsInside([x, y, z], p);
    assert Reverse([x, y, z]) == [z, y, x];
    hide Side, Times, Inside;
    if Turn(x, y, z) >= 0.0 { TriangleIsHalfOpen(x, y, z, p); } else { TriangleIsHalfOpen(z, y, x, p); }
  }
}
