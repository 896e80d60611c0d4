/** Outer rings of scripts/atlas-geometry.py, in integer centidegrees: duplicates and date line. */
module Rings {
  import opened Text

  datatype Point = Point(x: int, y: int)

  type Ring = seq<Point>

  // ---------------------------------------------------------------- duplicates

  /** The points that differ from the one before them. */
  function Turns(raw: seq<Point>): (r: seq<Point>)
    requires raw != []
    ensures r != [] && r[0] == raw[0] && r[|r| - 1] == raw[|raw| - 1]
  {
    var n := |raw| - 1;
    if n == 0 then raw
    else if raw[n] == raw[n - 1] then Turns(raw[..n])
    else Turns(raw[..n]) + [raw[n]]
  }

  /** Without the closing point, if it repeats the first. */
  function Opened(turns: seq<Point>): seq<Point>
    requires turns != []
  {
    if |turns| > 1 && turns[|turns| - 1] == turns[0] then turns[..|turns| - 1] else turns
  }

  method Dedup(raw: seq<Point>) returns (ring: seq<Point>)
    requires raw != []
    ensures ring == Opened(Turns(raw))
  {
    ring := [raw[0]];
    assert raw[..1] == [raw[0]];
    for i := 1 to |raw|
      invariant ring == Turns(raw[..i])
    {
      assert raw[..i + 1][..i] == raw[..i];
      if raw[i] != ring[|ring| - 1] {
        ring := ring + [raw[i]];
      }
    }
    assert raw[..|raw|] == raw;
    if |ring| > 1 && ring[|ring| - 1] == ring[0] {
      ring := ring[..|ring| - 1];
    }
  }

  predicate NoStutter(points: seq<Point>) {
    forall i :: 0 < i < |points| ==> points[i] != points[i - 1]
  }

  lemma {:induction false} TurnsNoStutter(raw: seq<Point>)
    requires raw != []
    ensures NoStutter(Turns(raw))
  {
    var n := |raw| - 1;
    if n == 0 {
    } else {
      TurnsNoStutter(raw[..n]);
    }
  }

  lemma {:induction false} TurnsKeepAll(raw: seq<Point>, p: Point)
    requires raw != []
    ensures p in Turns(raw) <==> p in raw
  {
    var n := |raw| - 1;
    if n == 0 {
    } else {
      TurnsKeepAll(raw[..n], p);
      assert raw == raw[..n] + [raw[n]];
    }
  }

  predicate Picks<T(==)>(all: seq<T>, picks: seq<nat>, kept: seq<T>) {
    |kept| == |picks| && forall i :: 0 <= i < |picks| ==> picks[i] < |all| && kept[i] == all[picks[i]]
  }

  /** Not the same point as the one before. */
  predicate NewAt(raw: seq<Point>, k: nat)
    requires k < |raw|
  {
    k > 0 ==> raw[k] != raw[k - 1]
  }

  /** Exactly the points that differ from the one before them stay, in their order. */
  lemma {:induction false} TurnsInOrder(raw: seq<Point>, n: nat) returns (picks: seq<nat>)
    requires 0 < n <= |raw|
    ensures Picks(raw, picks, Turns(raw[..n])) && Increasing(picks)
    ensures forall k: nat :: k in picks <==> k < n && NewAt(raw, k)
  {
    if n == 1 {
      picks := [0];
    } else {
      var before := TurnsInOrder(raw, n - 1);
      TurnsNext(raw, n - 1);
      hide Turns, Increasing, Picks;
      picks := PickOneMore(raw, before, Turns(raw[..n - 1]), n - 1, NewAt(raw, n - 1));
    }
  }

  lemma TurnsNext(raw: seq<Point>, n: nat)
    requires 0 < n < |raw|
    ensures Turns(raw[..n + 1]) == Turns(raw[..n]) + if NewAt(raw, n) then [raw[n]] else []
  {
    assert raw[..n + 1][..n] == raw[..n];
  }

  lemma PickOneMore<T>(all: seq<T>, before: seq<nat>, kept: seq<T>, n: nat, takes: bool) returns (picks: seq<nat>)
    requires Picks(all, before, kept) && Increasing(before) && n < |all| && forall k <- before :: k < n
    ensures Picks(all, picks, kept + if takes then [all[n]] else []) && Increasing(picks)
    ensures forall k: nat :: k in picks <==> k in before || (takes && k == n)
  {
    assert forall i :: 0 <= i < |before| ==> before[i] in before;
    if takes {
      picks := before + [n];
    } else {
      picks := before;
      assert kept + [] == kept;
    }
  }

  /** No two neighbours are alike, the last and the first included. */
  predicate Simple(ring: seq<Point>) {
    NoStutter(ring) && (|ring| > 1 ==> ring[|ring| - 1] != ring[0])
  }

  /** A ring keeps every position, and no position twice in a row. */
  lemma RingIsSimple(raw: seq<Point>)
    requires raw != []
    ensures var ring := Opened(Turns(raw));
      ring != [] && Simple(ring) && forall p :: p in ring <==> p in raw
  {
    TurnsNoStutter(raw);
    forall p ensures p in Turns(raw) <==> p in raw {
      TurnsKeepAll(raw, p);
    }
    var turns := Turns(raw);
    hide Turns;
    if Opened(turns) != turns {
      var ring := turns[..|turns| - 1];
      assert turns == ring + [turns[0]] && ring[0] == turns[0];
      assert turns[|turns| - 1] != turns[|turns| - 2];
    }
  }

  // ---------------------------------------------------------------- date line

  predicate Short(d: int) {
    -18000 <= d <= 18000
  }

  /** A step of longitude, by a full turn shorter when it is more than half a turn. */
  function Step(d: int): int {
    if d > 18000 then d - 36000 else if d < -18000 then d + 36000 else d
  }

  predicate FullTurns(d: int) {
    d % 36000 == 0
  }

  /** Each place, moved by full turns only, and each step shortened at most once. */
  predicate Unwrapped(points: seq<Point>, out: seq<Point>)
    requires |out| <= |points|
  {
    && (forall i :: 0 <= i < |out| ==> out[i].y == points[i].y && FullTurns(out[i].x - points[i].x))
    && (forall i :: 0 < i < |out| ==> out[i].x - out[i - 1].x == Step(points[i].x - points[i - 1].x))
  }

  /** There is only one such sequence that starts where `points` does. */
  function Unrolled(points: seq<Point>): (out: seq<Point>)
    requires points != []
    ensures |out| == |points| && out[0] == points[0]
  {
    var n := |points| - 1;
    if n == 0 then points
    else
      var before := Unrolled(points[..n]);
      before + [Point(before[n - 1].x + Step(points[n].x - points[n - 1].x), points[n].y)]
  }

  lemma UnwrappedFirst(points: seq<Point>, out: seq<Point>, n: nat)
    requires |out| == |points| == n + 1 && n > 0 && Unwrapped(points, out)
    ensures Unwrapped(points[..n], out[..n])
    ensures out[n] == Point(out[n - 1].x + Step(points[n].x - points[n - 1].x), points[n].y)
  {
    hide FullTurns, Step;
    assert out[n].x - out[n - 1].x == Step(points[n].x - points[n - 1].x);
  }

  lemma {:induction false} UnwrappedIs(points: seq<Point>, out: seq<Point>)
    requires points != [] && |out| == |points| && out[0] == points[0] && Unwrapped(points, out)
    ensures out == Unrolled(points)
  {
    hide Unwrapped, Step;
    var n := |points| - 1;
    if n == 0 {
    } else {
      UnwrappedFirst(points, out, n);
      UnwrappedIs(points[..n], out[..n]);
      assert out == out[..n] + [out[n]];
    }
  }

  method Unwrap(points: seq<Point>) returns (out: seq<Point>)
    requires points != []
    ensures |out| == |points| && out[0] == points[0] && Unwrapped(points, out) && out == Unrolled(points)
  {
    hide FullTurns, Step, Unwrapped;
    out := [points[0]];
    var shift := 0;
    FullTurnsAdd(0);
    assert Unwrapped(points, []) by { UnwrappedEmpty(points); }
    UnwrappedGrows(points, [], points[0]);
    assert [] + [points[0]] == out;
    for i := 1 to |points|
      invariant |out| == i && out[0] == points[0] && Unwrapped(points, out)
      invariant FullTurns(shift) && out[i - 1].x == points[i - 1].x + shift
    {
      var delta := points[i].x + shift - out[i - 1].x;
      FullTurnsAdd(shift);
      StepIs(delta);
      if delta > 18000 {
        shift := shift - 36000;
      } else if delta < -18000 {
        shift := shift + 36000;
      }
      UnwrappedGrows(points, out, Point(points[i].x + shift, points[i].y));
      out := out + [Point(points[i].x + shift, points[i].y)];
    }
    UnwrappedIs(points, out);
  }

  lemma UnwrappedEmpty(points: seq<Point>)
    ensures Unwrapped(points, [])
  {
  }

  lemma FullTurnsAdd(shift: int)
    ensures FullTurns(0) && (FullTurns(shift) ==> FullTurns(shift - 36000) && FullTurns(shift + 36000))
  {
  }

  lemma StepIs(d: int)
    ensures Step(d) == (if d > 18000 then d - 36000 else if d < -18000 then d + 36000 else d)
  {
  }

  lemma UnwrappedGrows(points: seq<Point>, out: seq<Point>, p: Point)
    requires |out| < |points| && Unwrapped(points, out)
    requires p.y == points[|out|].y && FullTurns(p.x - points[|out|].x)
    requires out != [] ==> p.x - out[|out| - 1].x == Step(points[|out|].x - points[|out| - 1].x)
    ensures Unwrapped(points, out + [p])
  {
  }

  /**
   A step comes out as at most half a turn exactly when the raw longitudes are at most one and a
   half turns apart; longitudes within one turn always do.
   */
  lemma UnwrappedSteps(points: seq<Point>, out: seq<Point>, i: nat)
    requires |out| == |points| && Unwrapped(points, out) && 0 < i < |points|
    ensures Short(out[i].x - out[i - 1].x) <==> -54000 <= points[i].x - points[i - 1].x <= 54000
    ensures Short(points[i].x) && Short(points[i - 1].x) ==> Short(out[i].x - out[i - 1].x)
  {
    assert out[i].x - out[i - 1].x == Step(points[i].x - points[i - 1].x);
  }

  predicate Whole(q: real) {
    q == q.Floor as real
  }

  /** The longitude of a label: the same place within one turn, the date line on its eastern side. */
  function Normalised(x: real): (r: real)
    ensures -18000.0 < r <= 18000.0 && Whole((r - x) / 36000.0)
  {
    var turns := ((x + 18000.0) / 36000.0).Floor;
    var r := x - turns as real * 36000.0;
    if r == -18000.0 then
      WholeTurns(x, 18000.0, 1 - turns);
      18000.0
    else
      WholeTurns(x, r, -turns);
      r
  }

  lemma WholeTurns(x: real, r: real, k: int)
    requires r == x + k as real * 36000.0
    ensures Whole((r - x) / 36000.0)
  {
    var q := (r - x) / 36000.0;
    assert q == k as real;
  }
}
