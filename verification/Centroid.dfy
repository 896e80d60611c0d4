/** Label positions of scripts/atlas-geometry.py: the centroid of the largest ring, in exact arithmetic. */
module Centroid {
  import opened Rings

  // ---------------------------------------------------------------- sums over a ring

  /** Twice a signed area, and its moments: three times that times the coordinates of its centroid. */
  datatype Moments = Moments(area2: int, x: int, y: int)

  const NONE := Moments(0, 0, 0)

  function Plus(a: Moments, b: Moments): Moments {
    Moments(a.area2 + b.area2, a.x + b.x, a.y + b.y)
  }

  function Cross(p: Point, q: Point): int {
    p.x * q.y - q.x * p.y
  }

  function Edge(p: Point, q: Point): Moments {
    Moments(Cross(p, q), (p.x + q.x) * Cross(p, q), (p.y + q.y) * Cross(p, q))
  }

  function After(points: Ring, i: nat): Point
    requires i < |points|
  {
    if i + 1 < |points| then points[i + 1] else points[0]
  }

  /** The first `n` edges of the closed ring. */
  function Edges(points: Ring, n: nat): Moments
    requires n <= |points|
  {
    if n == 0 then NONE else Plus(Edges(points, n - 1), Edge(points[n - 1], After(points, n - 1)))
  }

  // ---------------------------------------------------------------- meaning

  /** A triangle, with the mean of its corners as its centroid. */
  function Triangle(p: Point, q: Point, r: Point): Moments {
    var area2 := (q.x - p.x) * (r.y - p.y) - (r.x - p.x) * (q.y - p.y);
    Moments(area2, area2 * (p.x + q.x + r.x), area2 * (p.y + q.y + r.y))
  }

  /** The triangles between the first point and each edge of the first `n` points; the first of them is flat. */
  function Fan(points: Ring, n: nat): Moments
    requires n <= |points|
  {
    if n <= 1 then NONE else Plus(Fan(points, n - 1), Triangle(points[0], points[n - 2], points[n - 1]))
  }

  lemma CrossesOfTriangle(x0: int, y0: int, x1: int, y1: int, x2: int, y2: int)
    ensures var a, b, c := x0 * y1 - x1 * y0, x1 * y2 - x2 * y1, x2 * y0 - x0 * y2;
      && (x1 - x0) * (y2 - y0) - (x2 - x0) * (y1 - y0) == a + b + c
      && x0 * b + x1 * c + x2 * a == 0 && y0 * b + y1 * c + y2 * a == 0
  {
  }

  lemma MomentsOfSides(u: int, v: int, w: int, a: int, b: int, c: int)
    requires u * b + v * c + w * a == 0
    ensures (v + w) * b + (w + u) * c == (v + u) * -a + (a + b + c) * (u + v + w)
  {
  }

  lemma CrossTurns(p: Point, q: Point)
    ensures Cross(q, p) == -Cross(p, q)
  {
  }

  /** Two sides of a triangle amount to the triangle and its third side. */
  lemma SidesOfTriangle(p: Point, q: Point, r: Point)
    ensures Plus(Edge(q, r), Edge(r, p)) == Plus(Edge(q, p), Triangle(p, q, r))
  {
    var a, b, c := Cross(p, q), Cross(q, r), Cross(r, p);
    CrossTurns(p, q);
    CrossesOfTriangle(p.x, p.y, q.x, q.y, r.x, r.y);
    MomentsOfSides(p.x, q.x, r.x, a, b, c);
    MomentsOfSides(p.y, q.y, r.y, a, b, c);
    hide Cross;
    assert Triangle(p, q, r).area2 == a + b + c;
  }

  lemma FlatTriangle(p: Point)
    ensures Plus(NONE, Edge(p, p)) == NONE
  {
  }

  lemma Regroup(sum: Moments, f: Moments, g: Moments, h: Moments, triangle: Moments)
    requires Plus(g, h) == Plus(f, triangle)
    ensures Plus(Plus(sum, g), h) == Plus(Plus(sum, f), triangle)
  {
  }

  lemma {:induction false} EdgesCloseFan(points: Ring, n: nat)
    requires 1 <= n <= |points|
    ensures Plus(Edges(points, n - 1), Edge(points[n - 1], points[0])) == Fan(points, n)
  {
    hide Edge, Triangle, Plus;
    if n == 1 {
      FlatTriangle(points[0]);
    } else {
      var first, p, q := points[0], points[n - 2], points[n - 1];
      EdgesCloseFan(points, n - 1);
      SidesOfTriangle(first, p, q);
      Regroup(Edges(points, n - 2), Edge(p, first), Edge(p, q), Edge(q, first), Triangle(first, p, q));
    }
  }

  /** The sums of the loop are those of the triangles: their areas add up, and so do their centroids, by area. */
  lemma EdgesAreFan(points: Ring)
    ensures Edges(points, |points|) == Fan(points, |points|)
  {
    if points != [] {
      EdgesCloseFan(points, |points|);
    }
  }

  // ---------------------------------------------------------------- the centroid

  datatype Place = Place(x: real, y: real)

  function Mean(sum: int, area2: int): real
    requires area2 != 0
  {
    sum as real / (3.0 * area2 as real)
  }

  function Middle(m: Moments, first: Point): Place {
    if m.area2 == 0 then Place(first.x as real, first.y as real) else Place(Mean(m.x, m.area2), Mean(m.y, m.area2))
  }

  /** The mean of the triangles' centroids by signed area; without an area, the first point. */
  function CentroidOf(points: Ring): Place
    requires points != []
  {
    Middle(Edges(points, |points|), points[0])
  }

  method SignedAreaAndCentroid(points: Ring) returns (area: real, place: Place)
    requires points != []
    ensures 2.0 * area == Edges(points, |points|).area2 as real && place == CentroidOf(points)
  {
    var area2, cx, cy := 0, 0, 0;
    hide Cross;
    for i := 0 to |points|
      invariant Moments(area2, cx, cy) == Edges(points, i)
    {
      var p, q := points[i], After(points, i);
      var cross := Cross(p, q);
      area2 := area2 + cross;
      cx := cx + (p.x + q.x) * cross;
      cy := cy + (p.y + q.y) * cross;
    }
    area := area2 as real / 2.0;
    if area2 == 0 {
      return 0.0, Place(points[0].x as real, points[0].y as real);
    }
    place := Place(cx as real / (3.0 * area2 as real), cy as real / (3.0 * area2 as real));
  }

  function Moved(points: Ring, dx: int, dy: int): Ring {
    seq(|points|, i requires 0 <= i < |points| => Point(points[i].x + dx, points[i].y + dy))
  }

  function Shifted(m: Moments, dx: int, dy: int): Moments {
    Moments(m.area2, m.x + 3 * dx * m.area2, m.y + 3 * dy * m.area2)
  }

  lemma TriangleMoves(p: Point, q: Point, r: Point, dx: int, dy: int)
    ensures Triangle(Point(p.x + dx, p.y + dy), Point(q.x + dx, q.y + dy), Point(r.x + dx, r.y + dy)) ==
      Shifted(Triangle(p, q, r), dx, dy)
  {
  }

  lemma ShiftedAdds(a: Moments, b: Moments, dx: int, dy: int)
    ensures Shifted(Plus(a, b), dx, dy) == Plus(Shifted(a, dx, dy), Shifted(b, dx, dy)) && Shifted(NONE, dx, dy) == NONE
  {
  }

  lemma {:induction false} FanMoves(points: Ring, n: nat, dx: int, dy: int)
    requires n <= |points|
    ensures Fan(Moved(points, dx, dy), n) == Shifted(Fan(points, n), dx, dy)
  {
    hide Triangle, Shifted, Plus;
    if n <= 1 {
      ShiftedAdds(NONE, NONE, dx, dy);
    } else {
      FanMoves(points, n - 1, dx, dy);
      TriangleMoves(points[0], points[n - 2], points[n - 1], dx, dy);
      ShiftedAdds(Fan(points, n - 1), Triangle(points[0], points[n - 2], points[n - 1]), dx, dy);
    }
  }

  lemma MeanMoves(sum: int, area2: int, d: int)
    requires area2 != 0
    ensures Mean(sum + 3 * d * area2, area2) == Mean(sum, area2) + d as real
  {
    assert (sum + 3 * d * area2) as real == sum as real + d as real * (3.0 * area2 as real);
  }

  lemma MiddleMoves(m: Moments, first: Point, dx: int, dy: int)
    ensures var was, now := Middle(m, first), Middle(Shifted(m, dx, dy), Point(first.x + dx, first.y + dy));
      && now == Place(was.x + dx as real, was.y + dy as real)
      && Shifted(m, dx, dy).area2 == m.area2
  {
    hide Mean;
    if m.area2 != 0 {
      MeanMoves(m.x, m.area2, dx);
      MeanMoves(m.y, m.area2, dy);
    }
  }

  /** A ring that moves as a whole keeps its area and takes its centroid along. */
  lemma CentroidMoves(points: Ring, dx: int, dy: int)
    requires points != []
    ensures Edges(Moved(points, dx, dy), |points|).area2 == Edges(points, |points|).area2
    ensures CentroidOf(Moved(points, dx, dy)) ==
      Place(CentroidOf(points).x + dx as real, CentroidOf(points).y + dy as real)
  {
    EdgesAreFan(points);
    EdgesAreFan(Moved(points, dx, dy));
    FanMoves(points, |points|, dx, dy);
    hide Edges, Fan, Shifted, Middle;
    MiddleMoves(Fan(points, |points|), points[0], dx, dy);
  }

  // ---------------------------------------------------------------- the label

  /** `round`: to the nearest integer, from the middle to the even one. */
  function Rounded(x: real): (r: int)
    ensures -0.5 <= x - r as real <= 0.5
    ensures x - r as real == 0.5 || x - r as real == -0.5 ==> r % 2 == 0
  {
    var down := x.Floor;
    var rest := x - down as real;
    if rest < 0.5 || (rest == 0.5 && down % 2 == 0) then down else down + 1
  }

  /** The size by which rings are compared: twice the area without its sign. */
  function Size(ring: Ring): nat
    requires ring != []
  {
    var area2 := Edges(Unrolled(ring), |ring|).area2;
    if area2 < 0 then -area2 else area2
  }

  /** The size of a ring is twice the area that the triangles of its fan enclose. */
  lemma SizeIsArea(ring: Ring)
    requires ring != []
    ensures var area2 := Fan(Unrolled(ring), |ring|).area2; Size(ring) == area2 || Size(ring) == -area2
  {
    EdgesAreFan(Unrolled(ring));
    hide Fan, Unrolled, Edges;
  }

  /** The centroid is the mean of the centroids of the triangles of its fan, each as heavy as its area. */
  lemma CentroidIsMean(points: Ring)
    requires points != []
    ensures var fan, place := Fan(points, |points|), CentroidOf(points);
      if fan.area2 == 0 then place == Place(points[0].x as real, points[0].y as real)
      else place.x * (3 * fan.area2) as real == fan.x as real && place.y * (3 * fan.area2) as real == fan.y as real
  {
    EdgesAreFan(points);
    hide Fan, Edges;
    MiddleIs(Fan(points, |points|), points[0]);
  }

  lemma MiddleIs(m: Moments, first: Point)
    ensures m.area2 == 0 ==> Middle(m, first) == Place(first.x as real, first.y as real)
    ensures m.area2 != 0 ==> Middle(m, first).x * (3 * m.area2) as real == m.x as real
    ensures m.area2 != 0 ==> Middle(m, first).y * (3 * m.area2) as real == m.y as real
  {
    hide Mean;
    if m.area2 != 0 {
      MeanTimes(m.x, m.area2);
      MeanTimes(m.y, m.area2);
    }
  }

  lemma MeanTimes(sum: int, area2: int)
    requires area2 != 0
    ensures Mean(sum, area2) * (3 * area2) as real == sum as real
  {
    var d := 3.0 * area2 as real;
    assert (3 * area2) as real == d;
  }

  predicate NoneBare(rings: seq<Ring>) {
    forall i :: 0 <= i < |rings| ==> rings[i] != []
  }

  /** The first of the largest rings. */
  function Largest(rings: seq<Ring>): (k: nat)
    requires rings != [] && NoneBare(rings)
    ensures k < |rings|
    ensures forall i :: 0 <= i < |rings| ==> Size(rings[i]) <= Size(rings[k])
    ensures forall i :: 0 <= i < k ==> Size(rings[i]) < Size(rings[k])
  {
    var n := |rings| - 1;
    if n == 0 then 0
    else
      var k := Largest(rings[..n]);
      if Size(rings[n]) > Size(rings[k]) then n else k
  }

  function CentreOf(rings: seq<Ring>): Point
    requires rings != [] && NoneBare(rings)
  {
    var place := CentroidOf(Unrolled(rings[Largest(rings)]));
    Point(Rounded(Normalised(place.x)), Rounded(place.y))
  }

  /** The label is within half a unit of the centroid of the first of the largest rings, whole turns of the globe aside. */
  lemma LabelIs(rings: seq<Ring>, k: nat) returns (turns: int)
    requires k < |rings| && NoneBare(rings)
    requires forall i :: 0 <= i < |rings| ==> Size(rings[i]) <= Size(rings[k])
    requires forall i :: 0 <= i < k ==> Size(rings[i]) < Size(rings[k])
    ensures var place, centre := CentroidOf(Unrolled(rings[k])), CentreOf(rings);
      && -0.5 <= place.y - centre.y as real <= 0.5
      && -0.5 <= place.x + (36000 * turns) as real - centre.x as real <= 0.5
      && -18000 <= centre.x <= 18000
  {
    assert Largest(rings) == k;
    hide CentroidOf, Unrolled, Size, Largest, Rounded;
    var x := CentroidOf(Unrolled(rings[k])).x;
    turns := NormalisedBy(x);
    LabelOnDateLine(x);
  }

  method Centre(rings: seq<Ring>) returns (centre: Point)
    requires rings != [] && NoneBare(rings)
    ensures centre == CentreOf(rings)
  {
    hide CentroidOf, Unrolled, Size;
    var k, largest: real := 0, 0.0;
    assert rings[..1] == [rings[0]];
    for i := 0 to |rings|
      invariant i > 0 ==> k == Largest(rings[..i]) && k < i && 2.0 * largest == Size(rings[k]) as real
    {
      var unwrapped := Unwrap(rings[i]);
      var area, _ := SignedAreaAndCentroid(unwrapped);
      var size := if area < 0.0 then -area else area;
      SizeIs(rings[i], size);
      assert i > 0 ==> rings[..i + 1][..i] == rings[..i];
      if i == 0 || size > largest {
        k, largest := i, size;
      }
    }
    assert rings[..|rings|] == rings;
    var unwrapped := Unwrap(rings[k]);
    var _, place := SignedAreaAndCentroid(unwrapped);
    centre := Point(Rounded(Normalised(place.x)), Rounded(place.y));
  }

  lemma SizeIs(ring: Ring, size: real)
    requires ring != []
    requires var area := Edges(Unrolled(ring), |ring|).area2 as real; 2.0 * size == if area < 0.0 then -area else area
    ensures 2.0 * size == Size(ring) as real
  {
  }

  lemma MovedGrows(points: Ring, p: Point, dx: int)
    ensures Moved(points + [p], dx, 0) == Moved(points, dx, 0) + [Point(p.x + dx, p.y)]
  {
  }

  lemma {:induction false} UnrolledMoves(ring: Ring, dx: int)
    requires ring != []
    ensures Unrolled(Moved(ring, dx, 0)) == Moved(Unrolled(ring), dx, 0)
  {
    var n, moved := |ring| - 1, Moved(ring, dx, 0);
    if n == 0 {
      assert moved == [Point(ring[0].x + dx, ring[0].y)];
    } else {
      var before := Unrolled(ring[..n]);
      UnrolledMoves(ring[..n], dx);
      assert moved[..n] == Moved(ring[..n], dx, 0);
      MovedGrows(before, Point(before[n - 1].x + Step(ring[n].x - ring[n - 1].x), ring[n].y), dx);
      hide Step;
      assert moved[n].x - moved[n - 1].x == ring[n].x - ring[n - 1].x;
    }
  }

  /** Which turn of the globe a ring is given on makes no difference to the longitude of its label. */
  lemma TurnsMakeNoDifference(ring: Ring, turns: int)
    requires ring != []
    ensures Size(Moved(ring, 36000 * turns, 0)) == Size(ring)
    ensures Normalised(CentroidOf(Unrolled(Moved(ring, 36000 * turns, 0))).x) == Normalised(CentroidOf(Unrolled(ring)).x)
  {
    UnrolledMoves(ring, 36000 * turns);
    CentroidMoves(Unrolled(ring), 36000 * turns, 0);
    NormalisedTurns(CentroidOf(Unrolled(ring)).x, turns);
  }

  lemma NormalisedBy(x: real) returns (turns: int)
    ensures Normalised(x) == x + (36000 * turns) as real
  {
    var r := Normalised(x);
    turns := ((r - x) / 36000.0).Floor;
    assert (r - x) / 36000.0 == turns as real;
    assert r - x == turns as real * 36000.0;
  }

  lemma NormalisedTurns(x: real, turns: int)
    ensures Normalised(x + (36000 * turns) as real) == Normalised(x)
  {
    var q := (x + 18000.0) / 36000.0;
    assert (x + (36000 * turns) as real + 18000.0) / 36000.0 == q + turns as real;
    assert (q + turns as real).Floor == q.Floor + turns;
  }

  /** The rounded longitude always fits, but is the western side of the date line for the last half unit before it. */
  lemma LabelOnDateLine(x: real)
    ensures -18000 <= Rounded(Normalised(x)) <= 18000
    ensures Rounded(Normalised(x)) == -18000 <==> Normalised(x) <= -17999.5
  {
  }

  const SQUARE := [Point(0, 0), Point(1, 0), Point(1, 1), Point(0, 1)]

  lemma FourEdges(a: Point, b: Point, c: Point, d: Point)
    ensures Edges([a, b, c, d], 4) == Plus(Plus(Plus(Plus(NONE, Edge(a, b)), Edge(b, c)), Edge(c, d)), Edge(d, a))
  {
    hide Edge, Plus;
    assert Edges([a, b, c, d], 1) == Plus(NONE, Edge(a, b));
    assert Edges([a, b, c, d], 2) == Plus(Plus(NONE, Edge(a, b)), Edge(b, c));
    assert Edges([a, b, c, d], 3) == Plus(Plus(Plus(NONE, Edge(a, b)), Edge(b, c)), Edge(c, d));
  }

  lemma EdgeIs(p: Point, q: Point, m: Moments)
    requires m.area2 == p.x * q.y - q.x * p.y && m.x == (p.x + q.x) * m.area2 && m.y == (p.y + q.y) * m.area2
    ensures Edge(p, q) == m
  {
  }

  lemma SquareSums()
    ensures Plus(Plus(Plus(Plus(NONE, Edge(Point(0, 0), Point(1, 0))), Edge(Point(1, 0), Point(1, 1))),
      Edge(Point(1, 1), Point(0, 1))), Edge(Point(0, 1), Point(0, 0))) == Moments(2, 3, 3)
  {
    hide Edge;
    EdgeIs(Point(0, 0), Point(1, 0), NONE);
    EdgeIs(Point(1, 0), Point(1, 1), Moments(1, 2, 1));
    EdgeIs(Point(1, 1), Point(0, 1), Moments(1, 1, 2));
    EdgeIs(Point(0, 1), Point(0, 0), NONE);
  }

  lemma MiddleOfSums(first: Point)
    ensures Middle(Moments(2, 3, 3), first) == Place(0.5, 0.5)
  {
  }

  lemma SquareCentre()
    ensures CentroidOf(SQUARE) == Place(0.5, 0.5)
  {
    hide Edge, Edges, Plus, Middle;
    FourEdges(Point(0, 0), Point(1, 0), Point(1, 1), Point(0, 1));
    SquareSums();
    MiddleOfSums(Point(0, 0));
  }

  lemma SquareUnrolled()
    ensures Unrolled(SQUARE) == SQUARE
  {
    assert SQUARE[..4] == SQUARE && SQUARE[..3][..2] == SQUARE[..2] && SQUARE[..2][..1] == SQUARE[..1];
    assert Unrolled(SQUARE[..1]) == SQUARE[..1];
    assert Unrolled(SQUARE[..2]) == SQUARE[..2];
    assert Unrolled(SQUARE[..3]) == SQUARE[..3];
  }

  lemma CentreOfOne(ring: Ring)
    requires ring != []
    ensures CentreOf([ring]).x == Rounded(Normalised(CentroidOf(Unrolled(ring)).x))
  {
    hide CentroidOf, Unrolled, Size;
  }

  /** A ring just east of the date line, whose label is nevertheless put on the western side of it. */
  lemma LabelPutWest()
    ensures CentreOf([Moved(SQUARE, -18000, 0)]).x == -18000
  {
    CentreOfOne(Moved(SQUARE, -18000, 0));
    SquareCentre();
    SquareUnrolled();
    UnrolledMoves(SQUARE, -18000);
    CentroidMoves(SQUARE, -18000, 0);
    LabelOnDateLine(-17999.5);
    hide CentroidOf, Unrolled, Moved, Rounded, CentreOf;
  }
}
