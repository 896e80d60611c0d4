/** The YTTA v1 file of scripts/atlas-geometry.py, and a reader that gets its contents back. */
module Atlas {
  import opened Text
  import opened Varint
  import opened Rings

  datatype Box = Box(west: int, south: int, east: int, north: int)

  datatype Feature = Feature(code: seq<Byte>, name: seq<Byte>, centre: Point, box: Box, rings: seq<Ring>)

  // ---------------------------------------------------------------- fields

  predicate Fits16(v: int) {
    -0x8000 <= v < 0x8000
  }

  /** Little-endian, as `struct.pack("<H")` and `("<h")` write them. */
  function U16(n: nat): seq<Byte>
    requires n < 0x1_0000
  {
    [n % 256, n / 256]
  }

  function I16(v: int): seq<Byte>
    requires Fits16(v)
  {
    U16(if v < 0 then v + 0x1_0000 else v)
  }

  function ReadU16(s: seq<Byte>): Option<Parsed<nat>> {
    if |s| < 2 then None else Some(Parsed((s[0] as int + 256 * s[1] as int) as nat, s[2..]))
  }

  function ReadI16(s: seq<Byte>): Option<Parsed<int>> {
    match ReadU16(s)
    case None => None
    case Some(p) => Some(Parsed(if p.value >= 0x8000 then p.value - 0x1_0000 else p.value, p.rest))
  }

  lemma ReadU16Undoes(n: nat, rest: seq<Byte>)
    requires n < 0x1_0000
    ensures ReadU16(U16(n) + rest) == Some(Parsed(n, rest))
  {
    assert (U16(n) + rest)[2..] == rest;
  }

  lemma ReadI16Undoes(v: int, rest: seq<Byte>)
    requires Fits16(v)
    ensures ReadI16(I16(v) + rest) == Some(Parsed(v, rest))
  {
    ReadU16Undoes(if v < 0 then v + 0x1_0000 else v, rest);
  }

  // ---------------------------------------------------------------- points

  predicate FitsPoint(p: Point) {
    Fits16(p.x) && Fits16(p.y)
  }

  function PointBytes(p: Point): seq<Byte>
    requires FitsPoint(p)
  {
    I16(p.x) + I16(p.y)
  }

  function ReadPoint(s: seq<Byte>): Option<Parsed<Point>> {
    match ReadI16(s)
    case None => None
    case Some(x) =>
      match ReadI16(x.rest)
      case None => None
      case Some(y) => Some(Parsed(Point(x.value, y.value), y.rest))
  }

  lemma ReadPointUndoes(p: Point, rest: seq<Byte>)
    requires FitsPoint(p)
    ensures ReadPoint(PointBytes(p) + rest) == Some(Parsed(p, rest))
  {
    hide ReadI16, I16;
    assert PointBytes(p) + rest == I16(p.x) + (I16(p.y) + rest);
    ReadI16Undoes(p.x, I16(p.y) + rest);
    ReadI16Undoes(p.y, rest);
  }

  function DeltaBytes(prev: Point, p: Point): seq<Byte> {
    VarintBytes(p.x - prev.x) + VarintBytes(p.y - prev.y)
  }

  function ReadDelta(prev: Point, s: seq<Byte>): Option<Parsed<Point>> {
    match ReadVarint(s)
    case None => None
    case Some(x) =>
      match ReadVarint(x.rest)
      case None => None
      case Some(y) => Some(Parsed(Point(prev.x + x.value, prev.y + y.value), y.rest))
  }

  lemma ReadDeltaUndoes(prev: Point, p: Point, rest: seq<Byte>)
    requires FitsPoint(prev) && FitsPoint(p)
    ensures ReadDelta(prev, DeltaBytes(prev, p) + rest) == Some(Parsed(p, rest))
  {
    hide VarintBytes, ReadVarint;
    var dx, dy := VarintBytes(p.x - prev.x), VarintBytes(p.y - prev.y);
    assert DeltaBytes(prev, p) + rest == dx + (dy + rest);
    ReadUndoesVarint(p.x - prev.x, dy + rest);
    ReadUndoesVarint(p.y - prev.y, rest);
  }

  function Deltas(prev: Point, points: seq<Point>): seq<Byte>
    decreases |points|
  {
    if points == [] then [] else DeltaBytes(prev, points[0]) + Deltas(points[0], points[1..])
  }

  function ReadDeltas(prev: Point, n: nat, s: seq<Byte>): Option<Parsed<seq<Point>>>
    decreases n
  {
    if n == 0 then Some(Parsed([], s))
    else
      match ReadDelta(prev, s)
      case None => None
      case Some(p) =>
        match ReadDeltas(p.value, n - 1, p.rest)
        case None => None
        case Some(more) => Some(Parsed([p.value] + more.value, more.rest))
  }

  predicate FitPoints(points: seq<Point>) {
    forall i :: 0 <= i < |points| ==> FitsPoint(points[i])
  }

  lemma {:induction false} ReadDeltasUndoes(prev: Point, points: seq<Point>, rest: seq<Byte>)
    requires FitsPoint(prev) && FitPoints(points)
    ensures ReadDeltas(prev, |points|, Deltas(prev, points) + rest) == Some(Parsed(points, rest))
    decreases |points|
  {
    if points == [] {
      assert Deltas(prev, points) + rest == rest;
    } else {
      hide ReadDelta, DeltaBytes;
      var tail := Deltas(points[0], points[1..]) + rest;
      assert Deltas(prev, points) + rest == DeltaBytes(prev, points[0]) + tail;
      ReadDeltaUndoes(prev, points[0], tail);
      ReadDeltasUndoes(points[0], points[1..], rest);
      assert [points[0]] + points[1..] == points;
    }
  }

  // ---------------------------------------------------------------- rings

  predicate FitsRing(ring: Ring) {
    0 < |ring| < 0x1_0000 && FitPoints(ring)
  }

  function RingBytes(ring: Ring): seq<Byte>
    requires FitsRing(ring)
  {
    U16(|ring|) + PointBytes(ring[0]) + Deltas(ring[0], ring[1..])
  }

  function ReadRing(s: seq<Byte>): Option<Parsed<Ring>> {
    match ReadU16(s)
    case None => None
    case Some(n) =>
      if n.value == 0 then None
      else
        match ReadPoint(n.rest)
        case None => None
        case Some(p) =>
          match ReadDeltas(p.value, n.value - 1, p.rest)
          case None => None
          case Some(more) => Some(Parsed([p.value] + more.value, more.rest))
  }

  lemma ReadRingUndoes(ring: Ring, rest: seq<Byte>)
    requires FitsRing(ring)
    ensures ReadRing(RingBytes(ring) + rest) == Some(Parsed(ring, rest))
  {
    hide ReadU16, U16, ReadPoint, PointBytes, ReadDeltas, Deltas;
    var tail := Deltas(ring[0], ring[1..]) + rest;
    assert RingBytes(ring) + rest == U16(|ring|) + (PointBytes(ring[0]) + tail);
    ReadU16Undoes(|ring|, PointBytes(ring[0]) + tail);
    ReadPointUndoes(ring[0], tail);
    ReadDeltasUndoes(ring[0], ring[1..], rest);
    assert [ring[0]] + ring[1..] == ring;
  }

  predicate FitRings(rings: seq<Ring>) {
    forall i :: 0 <= i < |rings| ==> FitsRing(rings[i])
  }

  function RingsBytes(rings: seq<Ring>): seq<Byte>
    requires FitRings(rings)
  {
    if rings == [] then [] else RingBytes(rings[0]) + RingsBytes(rings[1..])
  }

  function ReadRings(n: nat, s: seq<Byte>): Option<Parsed<seq<Ring>>> {
    if n == 0 then Some(Parsed([], s))
    else
      match ReadRing(s)
      case None => None
      case Some(ring) =>
        match ReadRings(n - 1, ring.rest)
        case None => None
        case Some(more) => Some(Parsed([ring.value] + more.value, more.rest))
  }

  lemma {:induction false} ReadRingsUndoes(rings: seq<Ring>, rest: seq<Byte>)
    requires FitRings(rings)
    ensures ReadRings(|rings|, RingsBytes(rings) + rest) == Some(Parsed(rings, rest))
  {
    if rings == [] {
      assert RingsBytes(rings) + rest == rest;
    } else {
      hide ReadRings, RingBytes, FitsRing;
      var tail := RingsBytes(rings[1..]) + rest;
      assert RingsBytes(rings) + rest == RingBytes(rings[0]) + tail;
      ReadRingsUndoes(rings[1..], rest);
      NextRing(rings[0], rings[1..], rest);
      assert [rings[0]] + rings[1..] == rings;
    }
  }

  lemma NextRing(first: Ring, more: seq<Ring>, rest: seq<Byte>)
    requires FitsRing(first) && FitRings(more)
    ensures ReadRings(|more|, RingsBytes(more) + rest) == Some(Parsed(more, rest)) ==>
      ReadRings(1 + |more|, RingBytes(first) + (RingsBytes(more) + rest)) == Some(Parsed([first] + more, rest))
  {
    ReadRingUndoes(first, RingsBytes(more) + rest);
    hide ReadRing, RingBytes, FitsRing, RingsBytes;
  }

  // ---------------------------------------------------------------- features

  predicate FitsBox(b: Box) {
    Fits16(b.west) && Fits16(b.south) && Fits16(b.east) && Fits16(b.north)
  }

  predicate FitsFeature(f: Feature) {
    |f.code| == 2 && |f.name| <= 60 && FitsPoint(f.centre) && FitsBox(f.box) && |f.rings| < 0x1_0000 && FitRings(f.rings)
  }

  function BoxBytes(b: Box): seq<Byte>
    requires FitsBox(b)
  {
    PointBytes(Point(b.west, b.south)) + PointBytes(Point(b.east, b.north))
  }

  /** Latitude before longitude for the centre, longitude first everywhere else. */
  function FeatureBytes(f: Feature): seq<Byte>
    requires FitsFeature(f)
  {
    f.code + [|f.name|] + f.name + PointBytes(Point(f.centre.y, f.centre.x)) + BoxBytes(f.box) + U16(|f.rings|) + RingsBytes(f.rings)
  }

  function ReadBox(s: seq<Byte>): Option<Parsed<Box>> {
    match ReadPoint(s)
    case None => None
    case Some(a) =>
      match ReadPoint(a.rest)
      case None => None
      case Some(b) => Some(Parsed(Box(a.value.x, a.value.y, b.value.x, b.value.y), b.rest))
  }

  function ReadHead(s: seq<Byte>): Option<Parsed<(seq<Byte>, seq<Byte>)>> {
    if |s| < 3 then None
    else
      var end := 3 + s[2] as int;
      if |s| < end then None else Some(Parsed((s[..2], s[3..end]), s[end..]))
  }

  function ReadFeature(s: seq<Byte>): Option<Parsed<Feature>> {
    match ReadHead(s)
    case None => None
    case Some(head) =>
      match ReadPoint(head.rest)
      case None => None
      case Some(c) =>
        match ReadBox(c.rest)
        case None => None
        case Some(box) => ReadBody(head.value.0, head.value.1, Point(c.value.y, c.value.x), box.value, box.rest)
  }

  function ReadBody(code: seq<Byte>, name: seq<Byte>, centre: Point, box: Box, s: seq<Byte>): Option<Parsed<Feature>> {
    match ReadU16(s)
    case None => None
    case Some(n) =>
      match ReadRings(n.value, n.rest)
      case None => None
      case Some(rings) => Some(Parsed(Feature(code, name, centre, box, rings.value), rings.rest))
  }

  lemma ReadBoxUndoes(b: Box, rest: seq<Byte>)
    requires FitsBox(b)
    ensures ReadBox(BoxBytes(b) + rest) == Some(Parsed(b, rest))
  {
    hide ReadPoint, PointBytes;
    var p, q := Point(b.west, b.south), Point(b.east, b.north);
    assert BoxBytes(b) + rest == PointBytes(p) + (PointBytes(q) + rest);
    ReadPointUndoes(p, PointBytes(q) + rest);
    ReadPointUndoes(q, rest);
  }

  lemma ReadHeadUndoes(code: seq<Byte>, name: seq<Byte>, rest: seq<Byte>)
    requires |code| == 2 && |name| < 256
    ensures ReadHead(code + [|name|] + name + rest) == Some(Parsed((code, name), rest))
  {
    var s := code + [|name|] + name + rest;
    assert s[..2] == code && s[3..3 + |name|] == name && s[3 + |name|..] == rest;
  }

  lemma ReadFeatureUndoes(f: Feature, rest: seq<Byte>)
    requires FitsFeature(f)
    ensures ReadFeature(FeatureBytes(f) + rest) == Some(Parsed(f, rest))
  {
    hide ReadHead, ReadPoint, PointBytes, ReadBox, BoxBytes, ReadU16, U16, ReadRings, RingsBytes;
    var rings := RingsBytes(f.rings) + rest;
    var body := U16(|f.rings|) + rings;
    var box := BoxBytes(f.box) + body;
    var centre := Point(f.centre.y, f.centre.x);
    assert FeatureBytes(f) + rest == f.code + [|f.name|] + f.name + (PointBytes(centre) + box);
    ReadHeadUndoes(f.code, f.name, PointBytes(centre) + box);
    ReadPointUndoes(centre, box);
    ReadBoxUndoes(f.box, body);
    ReadU16Undoes(|f.rings|, rings);
    ReadRingsUndoes(f.rings, rest);
  }

  predicate FitFeatures(features: seq<Feature>) {
    forall i :: 0 <= i < |features| ==> FitsFeature(features[i])
  }

  function FeaturesBytes(features: seq<Feature>): seq<Byte>
    requires FitFeatures(features)
  {
    if features == [] then [] else FeatureBytes(features[0]) + FeaturesBytes(features[1..])
  }

  function ReadFeatures(n: nat, s: seq<Byte>): Option<Parsed<seq<Feature>>> {
    if n == 0 then Some(Parsed([], s))
    else
      match ReadFeature(s)
      case None => None
      case Some(f) =>
        match ReadFeatures(n - 1, f.rest)
        case None => None
        case Some(more) => Some(Parsed([f.value] + more.value, more.rest))
  }

  lemma {:induction false} ReadFeaturesUndoes(features: seq<Feature>, rest: seq<Byte>)
    requires FitFeatures(features)
    ensures ReadFeatures(|features|, FeaturesBytes(features) + rest) == Some(Parsed(features, rest))
  {
    if features == [] {
      assert FeaturesBytes(features) + rest == rest;
    } else {
      hide ReadFeatures, FeatureBytes, FitsFeature;
      var tail := FeaturesBytes(features[1..]) + rest;
      assert FeaturesBytes(features) + rest == FeatureBytes(features[0]) + tail;
      ReadFeaturesUndoes(features[1..], rest);
      NextFeature(features[0], features[1..], rest);
      assert [features[0]] + features[1..] == features;
    }
  }

  lemma NextFeature(first: Feature, more: seq<Feature>, rest: seq<Byte>)
    requires FitsFeature(first) && FitFeatures(more)
    ensures ReadFeatures(|more|, FeaturesBytes(more) + rest) == Some(Parsed(more, rest)) ==>
      ReadFeatures(1 + |more|, FeatureBytes(first) + (FeaturesBytes(more) + rest)) == Some(Parsed([first] + more, rest))
  {
    ReadFeatureUndoes(first, FeaturesBytes(more) + rest);
    hide ReadFeature, FeatureBytes, FitsFeature, FeaturesBytes;
  }

  /** The letters YTTA and the version. */
  const MAGIC: seq<Byte> := [0x59, 0x54, 0x54, 0x41, 1]

  function FileBytes(features: seq<Feature>): seq<Byte>
    requires FitFeatures(features) && |features| < 0x1_0000
  {
    MAGIC + U16(|features|) + FeaturesBytes(features)
  }

  function ReadFile(s: seq<Byte>): Option<seq<Feature>> {
    if |s| < 5 || s[..5] != MAGIC then None
    else
      match ReadU16(s[5..])
      case None => None
      case Some(n) =>
        match ReadFeatures(n.value, n.rest)
        case None => None
        case Some(p) => if p.rest == [] then Some(p.value) else None
  }

  /** The reader gets every feature back: codes, names, centres, boxes and every point of every ring. */
  lemma ReadFileUndoes(features: seq<Feature>)
    requires FitFeatures(features) && |features| < 0x1_0000
    ensures ReadFile(FileBytes(features)) == Some(features)
  {
    hide ReadU16, U16, ReadFeatures, FeaturesBytes;
    var s := FileBytes(features);
    var body := FeaturesBytes(features) + [];
    assert s[..5] == MAGIC && s[5..] == U16(|features|) + body;
    ReadU16Undoes(|features|, body);
    ReadFeaturesUndoes(features, []);
  }
}
