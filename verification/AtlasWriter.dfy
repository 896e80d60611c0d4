/** From parsed features to the bytes of an atlas: `main` of scripts/atlas-geometry.py. */
module AtlasWriter {
  import opened Text
  import opened Varint
  import opened Rings
  import opened Atlas
  import opened Centroid
  import Utf8

  /** A feature as parsed and quantised: code points and outer rings. */
  datatype Source = Source(code: seq<nat>, name: seq<nat>, outers: seq<seq<Point>>)

  /** `-99` stands for no code; any other is cut or padded to two ASCII bytes. */
  function CodeOf(code: seq<nat>): (r: Option<seq<Byte>>)
    ensures r.Some? ==> |r.value| == 2
  {
    if code == [0x2D, 0x39, 0x39] then Some([0x2D, 0x2D])
    else if exists i :: 0 <= i < |code| && code[i] >= 0x80 then None
    else if |code| == 0 then Some([0x20, 0x20])
    else if |code| == 1 then Some([code[0], 0x20])
    else Some([code[0], code[1]])
  }

  /** `encode("ascii")`, `[:2]` and `ljust(2)`. */
  lemma CodeIs(code: seq<nat>)
    ensures code == [0x2D, 0x39, 0x39] ==> CodeOf(code) == Some([0x2D, 0x2D])
    ensures CodeOf(code).None? <==> code != [0x2D, 0x39, 0x39] && exists c <- code :: c > 127
    ensures code != [0x2D, 0x39, 0x39] && CodeOf(code).Some? ==>
      forall i :: 0 <= i < 2 ==> CodeOf(code).value[i] == if i < |code| then code[i] else 0x20
  {
    assert forall i :: 0 <= i < |code| ==> code[i] in code;
    assert forall c <- code :: exists i :: 0 <= i < |code| && code[i] == c;
  }

  predicate NoneEmpty(outers: seq<seq<Point>>) {
    forall i :: 0 <= i < |outers| ==> outers[i] != []
  }

  /** The deduplicated rings of at least three points, in order. */
  function KeptRings(outers: seq<seq<Point>>): (rings: seq<Ring>)
    requires NoneEmpty(outers)
    ensures NoneBare(rings)
  {
    if outers == [] then []
    else
      var n := |outers| - 1;
      var ring := Opened(Turns(outers[n]));
      KeptRings(outers[..n]) + if |ring| >= 3 then [ring] else []
  }

  /** Exactly the rings that keep three points are kept, in their order. */
  lemma {:induction false} KeptInOrder(outers: seq<seq<Point>>, rings: seq<Ring>, n: nat) returns (picks: seq<nat>)
    requires NoneEmpty(outers) && |rings| == |outers| && n <= |outers|
    requires forall k :: 0 <= k < |outers| ==> rings[k] == Opened(Turns(outers[k]))
    ensures Picks(rings, picks, KeptRings(outers[..n])) && Increasing(picks)
    ensures forall k: nat :: k in picks <==> k < n && |rings[k]| > 2
  {
    hide Turns, Opened;
    if n == 0 {
      picks := [];
    } else {
      var before := KeptInOrder(outers, rings, n - 1);
      KeptRingsNext(outers, n - 1);
      hide KeptRings, Increasing, Picks;
      picks := PickOneMore(rings, before, KeptRings(outers[..n - 1]), n - 1, |rings[n - 1]| > 2);
    }
  }

  // ---------------------------------------------------------------- bounding box

  predicate Inside(p: Point, b: Box) {
    b.west <= p.x <= b.east && b.south <= p.y <= b.north
  }

  function Grown(b: Box, p: Point): Box {
    Box(if p.x < b.west then p.x else b.west, if p.y < b.south then p.y else b.south,
        if p.x > b.east then p.x else b.east, if p.y > b.north then p.y else b.north)
  }

  function Flat(rings: seq<Ring>): seq<Point> {
    if rings == [] then [] else rings[0] + Flat(rings[1..])
  }

  function BoxOf(points: seq<Point>): Box
    requires points != []
  {
    var n := |points| - 1;
    if n == 0 then Box(points[0].x, points[0].y, points[0].x, points[0].y) else Grown(BoxOf(points[..n]), points[n])
  }

  /** Each side of the box touches one of the points. */
  predicate Touches(points: seq<Point>, b: Box) {
    && (exists p <- points :: p.x == b.west) && (exists p <- points :: p.x == b.east)
    && (exists p <- points :: p.y == b.south) && (exists p <- points :: p.y == b.north)
  }

  lemma TouchesGrown(points: seq<Point>, b: Box, p: Point)
    requires Touches(points, b)
    ensures Touches(points + [p], Grown(b, p))
  {
    var more := points + [p];
    assert p in more && forall q <- points :: q in more;
    var w :| w in points && w.x == b.west;
    var e :| e in points && e.x == b.east;
    var s :| s in points && s.y == b.south;
    var t :| t in points && t.y == b.north;
    assert w in more && e in more && s in more && t in more;
  }

  /** The smallest box around the points: it holds them all and each side touches one. */
  lemma {:induction false} BoxIsTight(points: seq<Point>)
    requires points != []
    ensures forall p <- points :: Inside(p, BoxOf(points))
    ensures Touches(points, BoxOf(points))
  {
    var n := |points| - 1;
    if n == 0 {
      assert points[0] in points;
    } else {
      BoxIsTight(points[..n]);
      assert points == points[..n] + [points[n]];
      TouchesGrown(points[..n], BoxOf(points[..n]), points[n]);
      hide Touches;
    }
  }

  lemma {:induction false} FlatHolds(rings: seq<Ring>, i: nat, k: nat)
    requires i < |rings| && k < |rings[i]|
    ensures rings[i][k] in Flat(rings)
  {
    if i > 0 {
      FlatHolds(rings[1..], i - 1, k);
    } else {
      assert rings[0][k] in rings[0];
    }
  }

  lemma {:induction false} FlatFrom(rings: seq<Ring>, p: Point) returns (i: nat, k: nat)
    requires p in Flat(rings)
    ensures i < |rings| && k < |rings[i]| && rings[i][k] == p
  {
    if p in rings[0] {
      i := 0;
      k :| 0 <= k < |rings[0]| && rings[0][k] == p;
    } else {
      i, k := FlatFrom(rings[1..], p);
      i := i + 1;
    }
  }

  /** The box of the rings holds every point of each, and each side touches a point of one of them. */
  lemma BoxOfRings(rings: seq<Ring>) returns (west: Point, south: Point, east: Point, north: Point)
    requires Flat(rings) != []
    ensures forall i, k :: 0 <= i < |rings| && 0 <= k < |rings[i]| ==> Inside(rings[i][k], BoxOf(Flat(rings)))
    ensures BoxOf(Flat(rings)) == Box(west.x, south.y, east.x, north.y)
    ensures forall p <- [west, south, east, north] :: exists i :: 0 <= i < |rings| && p in rings[i]
  {
    var points, b := Flat(rings), BoxOf(Flat(rings));
    BoxIsTight(points);
    hide BoxOf, Flat;
    forall i, k | 0 <= i < |rings| && 0 <= k < |rings[i]| ensures Inside(rings[i][k], b) {
      FlatHolds(rings, i, k);
    }
    west :| west in points && west.x == b.west;
    south :| south in points && south.y == b.south;
    east :| east in points && east.x == b.east;
    north :| north in points && north.y == b.north;
    forall p <- [west, south, east, north] ensures exists i :: 0 <= i < |rings| && p in rings[i] {
      var i, k := FlatFrom(rings, p);
    }
  }

  // ---------------------------------------------------------------- one feature

  /** What `struct.pack`, `min` of nothing, `encode` and indexing let through. */
  predicate Encodable(s: Source) {
    && CodeOf(s.code).Some? && Utf8.Scalars(s.name) && NoneEmpty(s.outers)
    && var rings := KeptRings(s.outers);
      && Flat(rings) != [] && |rings| < 0x1_0000 && (forall i :: 0 <= i < |rings| ==> |rings[i]| < 0x1_0000)
      && FitsBox(BoxOf(Flat(rings))) && FitsPoint(CentreOf(rings))
  }

  lemma FlatOfSome(rings: seq<Ring>)
    requires NoneBare(rings)
    ensures Flat(rings) != [] <==> rings != []
  {
    if rings != [] {
      FlatHolds(rings, 0, 0);
    }
  }

  /** The box of the rings can be packed exactly if every coordinate of every point can. */
  lemma BoxFitsExactly(rings: seq<Ring>)
    requires Flat(rings) != []
    ensures FitsBox(BoxOf(Flat(rings))) <==>
      forall ring <- rings, p <- ring :: -32768 <= p.x <= 32767 && -32768 <= p.y <= 32767
  {
    var b := BoxOf(Flat(rings));
    var west, south, east, north := BoxOfRings(rings);
    hide BoxOf, Flat;
    forall ring <- rings, p <- ring ensures Inside(p, b) {
      var i :| 0 <= i < |rings| && rings[i] == ring;
      var k :| 0 <= k < |ring| && ring[k] == p;
      assert Inside(rings[i][k], b);
    }
    forall p <- [west, south, east, north] ensures exists ring <- rings :: p in ring {
      var i :| 0 <= i < |rings| && p in rings[i];
      assert rings[i] in rings;
    }
    assert west in [west, south, east, north] && south in [west, south, east, north];
    assert east in [west, south, east, north] && north in [west, south, east, north];
  }

  lemma ScalarsAre(name: seq<nat>)
    ensures Utf8.Scalars(name) <==> forall c <- name :: c < 0xD800 || 0xE000 <= c < 0x110000
  {
    if Utf8.Scalars(name) {
      forall c <- name ensures Utf8.Scalar(c) {
        var i :| 0 <= i < |name| && name[i] == c;
        assert Utf8.Scalar(name[i]);
      }
    } else {
      var i :| 0 <= i < |name| && !Utf8.Scalar(name[i]);
      assert name[i] in name;
    }
  }

  /** Which features the format can hold. */
  lemma EncodableIs(s: Source)
    ensures Encodable(s) <==>
      && (s.code == [0x2D, 0x39, 0x39] || forall c <- s.code :: c < 128)
      && (forall c <- s.name :: c < 0xD800 || 0xE000 <= c < 0x110000)
      && NoneEmpty(s.outers)
      && var rings := KeptRings(s.outers);
        && 0 < |rings| < 65536 && (forall ring <- rings :: |ring| < 65536)
        && (forall ring <- rings, p <- ring :: -32768 <= p.x <= 32767 && -32768 <= p.y <= 32767)
        && -32768 <= CentreOf(rings).y <= 32767
  {
    CodeIs(s.code);
    ScalarsAre(s.name);
    hide Utf8.Scalars;
    if NoneEmpty(s.outers) {
      var rings := KeptRings(s.outers);
      FlatOfSome(rings);
      if rings != [] {
        BoxFitsExactly(rings);
        LabelFits(rings);
      }
      hide BoxOf, Flat, CentreOf, CodeOf, KeptRings, FitsPoint, FitsBox, NoneEmpty;
      assert (forall ring <- rings :: |ring| < 65536) <==> forall i :: 0 <= i < |rings| ==> |rings[i]| < 0x1_0000;
    }
  }

  lemma LabelFits(rings: seq<Ring>)
    requires rings != [] && NoneBare(rings)
    ensures FitsPoint(CentreOf(rings)) <==> -32768 <= CentreOf(rings).y <= 32767
  {
    var place := CentroidOf(Unrolled(rings[Largest(rings)]));
    LabelOnDateLine(place.x);
    hide CentroidOf, Unrolled, Largest, Rounded, Normalised;
  }

  function FeatureOf(s: Source): Feature
    requires Encodable(s)
  {
    var rings := KeptRings(s.outers);
    Feature(CodeOf(s.code).value, Utf8.Encode(s.name[..Utf8.Fitting(s.name, 60)]), CentreOf(rings), BoxOf(Flat(rings)), rings)
  }

  lemma {:induction false} KeptRingsAreRings(outers: seq<seq<Point>>, i: nat)
    requires NoneEmpty(outers) && i < |KeptRings(outers)|
    ensures |KeptRings(outers)[i]| >= 3 && Simple(KeptRings(outers)[i])
  {
    var n := |outers| - 1;
    if i < |KeptRings(outers[..n])| {
      KeptRingsAreRings(outers[..n], i);
    } else {
      RingIsSimple(outers[n]);
    }
  }

  /** A box that fits means every coordinate fits. */
  lemma FeatureFits(s: Source)
    requires Encodable(s)
    ensures FitsFeature(FeatureOf(s))
  {
    var rings := KeptRings(s.outers);
    var box := BoxOf(Flat(rings));
    BoxIsTight(Flat(rings));
    Utf8.FittingIsLongest(s.name, 60);
    forall i | 0 <= i < |rings| ensures FitsRing(rings[i]) {
      KeptRingsAreRings(s.outers, i);
      forall k | 0 <= k < |rings[i]| ensures FitsPoint(rings[i][k]) {
        FlatHolds(rings, i, k);
        assert Inside(rings[i][k], box);
      }
    }
  }

  // ---------------------------------------------------------------- writing

  method EncodeDelta(prev: Point, p: Point) returns (out: seq<Byte>)
    ensures out == DeltaBytes(prev, p)
  {
    out := ZigzagVarint(p.x - prev.x);
    var dy := ZigzagVarint(p.y - prev.y);
    out := out + dy;
  }

  lemma DeltasSplit(ring: Ring, i: nat)
    requires 0 < i < |ring|
    ensures Deltas(ring[i - 1], ring[i..]) == DeltaBytes(ring[i - 1], ring[i]) + Deltas(ring[i], ring[i + 1..])
  {
    assert ring[i..][1..] == ring[i + 1..];
  }

  /** Length, first point, and each further point as two deltas. */
  method EncodeRing(ring: Ring) returns (out: seq<Byte>)
    requires FitsRing(ring)
    ensures out == RingBytes(ring)
  {
    out := U16(|ring|) + PointBytes(ring[0]);
    var prev := ring[0];
    assert out + Deltas(prev, ring[1..]) == RingBytes(ring);
    ghost var whole := RingBytes(ring);
    hide Deltas, DeltaBytes, RingBytes, U16, PointBytes, FitsRing;
    for i := 1 to |ring|
      invariant prev == ring[i - 1] && out + Deltas(prev, ring[i..]) == whole
    {
      DeltasSplit(ring, i);
      var bytes := EncodeDelta(prev, ring[i]);
      out := out + bytes;
      prev := ring[i];
    }
    assert Deltas(prev, ring[|ring|..]) == [] by { NoDeltas(prev); }
  }

  lemma NoDeltas(prev: Point)
    ensures Deltas(prev, []) == []
  {
  }

  method KeepRings(outers: seq<seq<Point>>) returns (r: Result<seq<Ring>, ()>)
    ensures r.Ok? <==> NoneEmpty(outers)
    ensures r.Ok? ==> r.value == KeptRings(outers)
  {
    var rings := [];
    hide Turns, Opened, NoneEmpty, KeptRings;
    assert NoneEmpty(outers[..0]) && KeptRings(outers[..0]) == [] by { NothingKept(outers[..0]); }
    for i := 0 to |outers|
      invariant NoneEmpty(outers[..i]) && rings == KeptRings(outers[..i])
    {
      if outers[i] == [] {
        assert !NoneEmpty(outers) by { OneEmpty(outers, i); }
        return Err(());
      }
      var ring := Dedup(outers[i]);
      KeptRingsNext(outers, i);
      if |ring| >= 3 {
        rings := rings + [ring];
      }
    }
    assert outers[..|outers|] == outers;
    r := Ok(rings);
  }

  lemma NothingKept(outers: seq<seq<Point>>)
    requires outers == []
    ensures NoneEmpty(outers) && KeptRings(outers) == []
  {
  }

  lemma OneEmpty(outers: seq<seq<Point>>, i: nat)
    requires i < |outers| && outers[i] == []
    ensures !NoneEmpty(outers)
  {
  }

  lemma KeptRingsNext(outers: seq<seq<Point>>, i: nat)
    requires i < |outers| && NoneEmpty(outers[..i]) && outers[i] != []
    ensures NoneEmpty(outers[..i + 1])
    ensures var ring := Opened(Turns(outers[i]));
      KeptRings(outers[..i + 1]) == KeptRings(outers[..i]) + if |ring| >= 3 then [ring] else []
  {
    hide Turns, Opened;
    assert outers[..i + 1][..i] == outers[..i] && outers[..i + 1][i] == outers[i];
  }

  method EncodeFeature(s: Source) returns (r: Result<seq<Byte>, ()>)
    ensures r.Ok? <==> Encodable(s)
    ensures r.Ok? ==> FitsFeature(FeatureOf(s)) && r.value == FeatureBytes(FeatureOf(s))
  {
    var code := CodeOf(s.code);
    var name := Utf8.EncodeName(s.name);
    var rings := KeepRings(s.outers);
    if code.None? || name.Err? || rings.Err? || Flat(rings.value) == [] {
      return Err(());
    }
    var box := BoxOf(Flat(rings.value));
    var centre := Centre(rings.value);
    if !FitsPoint(centre) || !FitsBox(box) || |rings.value| >= 0x1_0000 || exists i :: 0 <= i < |rings.value| && |rings.value[i]| >= 0x1_0000 {
      return Err(());
    }
    FeatureFits(s);
    hide Utf8.Encode, Utf8.Fitting, Utf8.Scalars, CodeOf, KeptRings, BoxOf, Flat, NoneEmpty, FitsBox, FitsPoint, FitRings, RingsBytes;
    var bytes := PackFeature(Feature(code.value, name.value, centre, box, rings.value));
    r := Ok(bytes);
  }

  method PackFeature(f: Feature) returns (out: seq<Byte>)
    requires FitsFeature(f)
    ensures out == FeatureBytes(f)
  {
    var rings := EncodeRings(f.rings);
    out := f.code + [|f.name|] + f.name + PointBytes(Point(f.centre.y, f.centre.x)) + BoxBytes(f.box) + U16(|f.rings|) + rings;
  }

  method EncodeRings(rings: seq<Ring>) returns (out: seq<Byte>)
    requires FitRings(rings)
    ensures out == RingsBytes(rings)
  {
    hide FitsRing, RingBytes;
    out := [];
    for i := 0 to |rings|
      invariant out + RingsBytes(rings[i..]) == RingsBytes(rings)
    {
      assert rings[i..][1..] == rings[i + 1..];
      var bytes := EncodeRing(rings[i]);
      out := out + bytes;
    }
  }

  predicate AllEncodable(sources: seq<Source>) {
    forall i :: 0 <= i < |sources| ==> Encodable(sources[i])
  }

  function Features(sources: seq<Source>): (features: seq<Feature>)
    requires AllEncodable(sources)
    ensures |features| == |sources| && forall i :: 0 <= i < |sources| ==> features[i] == FeatureOf(sources[i])
  {
    if sources == [] then [] else [FeatureOf(sources[0])] + Features(sources[1..])
  }

  /** The features of `sources` are written after `head`. */
  predicate Written(sources: seq<Source>, head: seq<Byte>, out: seq<Byte>) {
    AllEncodable(sources) && FitFeatures(Features(sources)) && out == head + FeaturesBytes(Features(sources))
  }

  /** A written file reads back as exactly the features of its sources. */
  method EncodeAtlas(sources: seq<Source>) returns (r: Result<seq<Byte>, ()>)
    ensures r.Ok? <==> |sources| < 0x1_0000 && AllEncodable(sources)
    ensures r.Ok? ==> ReadFile(r.value) == Some(Features(sources))
  {
    if |sources| >= 0x1_0000 {
      return Err(());
    }
    var out := MAGIC + U16(|sources|);
    ghost var head := out;
    hide Encodable, FeatureOf, FitsFeature, FeatureBytes, Written, AllEncodable, U16;
    assert Written(sources[..0], head, out) by { NothingWritten(sources[..0], head); }
    for i := 0 to |sources|
      invariant Written(sources[..i], head, out)
    {
      var bytes := EncodeFeature(sources[i]);
      if bytes.Err? {
        assert !AllEncodable(sources) by { OneFails(sources, i); }
        return Err(());
      }
      OneMoreWritten(sources[..i], sources[i], head, out);
      assert sources[..i] + [sources[i]] == sources[..i + 1];
      out := out + bytes.value;
    }
    assert sources[..|sources|] == sources;
    WholeFileReads(sources, head, out);
    r := Ok(out);
  }

  lemma NothingWritten(sources: seq<Source>, head: seq<Byte>)
    requires sources == []
    ensures Written(sources, head, head)
  {
  }

  lemma OneFails(sources: seq<Source>, i: nat)
    requires i < |sources| && !Encodable(sources[i])
    ensures !AllEncodable(sources)
  {
  }

  lemma OneMoreWritten(sources: seq<Source>, s: Source, head: seq<Byte>, out: seq<Byte>)
    requires Written(sources, head, out) && Encodable(s) && FitsFeature(FeatureOf(s))
    ensures Written(sources + [s], head, out + FeatureBytes(FeatureOf(s)))
  {
    hide Encodable, FeatureOf, FitsFeature, FeatureBytes;
    FeaturesGrow(sources, s);
  }

  lemma WholeFileReads(sources: seq<Source>, head: seq<Byte>, out: seq<Byte>)
    requires |sources| < 0x1_0000 && head == MAGIC + U16(|sources|) && Written(sources, head, out)
    ensures AllEncodable(sources) && ReadFile(out) == Some(Features(sources))
  {
    hide ReadFile, AllEncodable, FitFeatures;
    ReadFileUndoes(Features(sources));
  }

  lemma FeaturesGrow(sources: seq<Source>, s: Source)
    requires AllEncodable(sources) && Encodable(s) && FitsFeature(FeatureOf(s)) && FitFeatures(Features(sources))
    ensures AllEncodable(sources + [s]) && Features(sources + [s]) == Features(sources) + [FeatureOf(s)]
    ensures FitFeatures(Features(sources) + [FeatureOf(s)])
    ensures FeaturesBytes(Features(sources) + [FeatureOf(s)]) == FeaturesBytes(Features(sources)) + FeatureBytes(FeatureOf(s))
  {
    hide Encodable, FeatureOf, FitsFeature, FeatureBytes;
    assert AllEncodable(sources + [s]);
    assert Features(sources + [s]) == Features(sources) + [FeatureOf(s)];
    BytesGrow(Features(sources), FeatureOf(s));
  }

  lemma {:induction false} BytesGrow(features: seq<Feature>, f: Feature)
    requires FitFeatures(features) && FitsFeature(f)
    ensures FitFeatures(features + [f]) && FeaturesBytes(features + [f]) == FeaturesBytes(features) + FeatureBytes(f)
  {
    hide FitsFeature, FeatureBytes;
    if features == [] {
      assert features + [f] == [f];
      assert FeaturesBytes([f]) == FeatureBytes(f) + FeaturesBytes([]);
    } else {
      BytesGrow(features[1..], f);
      assert (features + [f])[1..] == features[1..] + [f];
    }
  }
}
