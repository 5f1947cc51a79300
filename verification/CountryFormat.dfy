/** The language of country data files, and that the reader accepts exactly this language. */
module CountryFormat {
  import opened Bytes
  import opened CountryData
  import opened Reversal

  // A polygon as written: a byte order flag, where 1 means little endian, and its rings
  datatype Shape = Shape(order: byte, rings: seq<Ring>)

  datatype Geometry = Single(shape: Shape) | Multi(order: byte, shapes: seq<Shape>)

  // An entry as written; bytes that follow the geometry within its announced size are ignored
  datatype Country = Country(code: nat, geometry: Geometry, padding: seq<byte>)

  // ---- what is written ----

  function PointBytes(little: bool, p: Point): (s: seq<byte>)
    ensures |s| == 16
  {
    Encode(p.longitude, 8, little) + Encode(p.latitude, 8, little)
  }

  function PointsBytes(little: bool, ring: Ring): (s: seq<byte>)
    ensures |s| == 16 * |ring|
  {
    if ring == [] then [] else PointsBytes(little, ring[..|ring| - 1]) + PointBytes(little, ring[|ring| - 1])
  }

  function RingBytes(little: bool, ring: Ring): seq<byte> {
    Encode(|ring|, COUNT, little) + PointsBytes(little, ring)
  }

  function RingsBytes(little: bool, rings: seq<Ring>): seq<byte> {
    if rings == [] then [] else RingsBytes(little, rings[..|rings| - 1]) + RingBytes(little, rings[|rings| - 1])
  }

  function BodyBytes(little: bool, rings: seq<Ring>): seq<byte> {
    Encode(|rings|, COUNT, little) + RingsBytes(little, rings)
  }

  function HeaderBytes(order: byte, kind: nat): (s: seq<byte>)
    ensures |s| == HEADER
  {
    [order] + Encode(kind, COUNT, IsLittle(order))
  }

  function ShapeBytes(shape: Shape): seq<byte> {
    HeaderBytes(shape.order, POLYGON) + BodyBytes(IsLittle(shape.order), shape.rings)
  }

  function ShapesBytes(shapes: seq<Shape>): seq<byte> {
    if shapes == [] then [] else ShapesBytes(shapes[..|shapes| - 1]) + ShapeBytes(shapes[|shapes| - 1])
  }

  function GeometryBytes(g: Geometry): seq<byte> {
    match g
    case Single(shape) => ShapeBytes(shape)
    case Multi(order, shapes) =>
      HeaderBytes(order, MULTIPOLYGON) + Encode(|shapes|, COUNT, IsLittle(order)) + ShapesBytes(shapes)
  }

  function PayloadBytes(c: Country): seq<byte> {
    GeometryBytes(c.geometry) + c.padding
  }

  function EntryBytes(code: nat, payload: seq<byte>): (s: seq<byte>)
    ensures |s| == 6 + |payload|
  {
    Encode(code, 2, true) + Encode(|payload|, 4, true) + payload
  }

  function CountryBytes(c: Country): seq<byte> {
    EntryBytes(c.code, PayloadBytes(c))
  }

  function CountriesBytes(cs: seq<Country>): seq<byte> {
    if cs == [] then [] else CountryBytes(cs[0]) + CountriesBytes(cs[1..])
  }

  function FileBytes(cs: seq<Country>): seq<byte> {
    Encode(VERSION, 2, true) + CountriesBytes(cs)
  }

  // ---- what can be written: numbers fit their fields ----

  ghost predicate PointFits(p: Point) {
    p.longitude < Values(8) && p.latitude < Values(8)
  }

  ghost predicate PointsFit(ring: Ring) {
    forall i :: 0 <= i < |ring| ==> PointFits(ring[i])
  }

  ghost predicate RingFits(ring: Ring) {
    |ring| < Values(COUNT) && PointsFit(ring)
  }

  ghost predicate RingsFit(rings: seq<Ring>) {
    forall i :: 0 <= i < |rings| ==> RingFits(rings[i])
  }

  ghost predicate ShapeFits(shape: Shape) {
    |shape.rings| < Values(COUNT) && RingsFit(shape.rings)
  }

  ghost predicate ShapesFit(shapes: seq<Shape>) {
    forall i :: 0 <= i < |shapes| ==> ShapeFits(shapes[i])
  }

  ghost predicate GeometryFits(g: Geometry) {
    match g
    case Single(shape) => ShapeFits(shape)
    case Multi(_, shapes) => |shapes| < Values(COUNT) && ShapesFit(shapes)
  }

  ghost predicate CountryFits(c: Country) {
    c.code < Values(2) && GeometryFits(c.geometry) && |PayloadBytes(c)| < Values(4)
  }

  // ---- what it means ----

  function PolygonsOf(shapes: seq<Shape>): (r: seq<Polygon>)
    ensures |r| == |shapes|
  {
    if shapes == [] then [] else PolygonsOf(shapes[..|shapes| - 1]) + [PolygonOf(shapes[|shapes| - 1].rings)]
  }

  function GeometryPolygons(g: Geometry): seq<Polygon> {
    match g
    case Single(shape) => [PolygonOf(shape.rings)]
    case Multi(_, shapes) => PolygonsOf(shapes)
  }

  function EntryOf(c: Country): Entry {
    Entry(c.code, GeometryPolygons(c.geometry))
  }

  function EntriesOf(cs: seq<Country>): seq<Entry> {
    if cs == [] then [] else [EntryOf(cs[0])] + EntriesOf(cs[1..])
  }

  lemma {:induction false} LastOf<T>(s: seq<T>)
    requires s != []
    ensures s[..|s| - 1] + [s[|s| - 1]] == s
  {
  }

  // ---- rings ----

  lemma {:induction false} PointRead(data: seq<byte>, little: bool, offset: nat, p: Point)
    requires offset + 16 <= |data|
    ensures PointAt(data, little, offset) == p <==> PointFits(p) && At(data, offset, PointBytes(little, p))
  {
    NumberAt(data, offset, 8, little, p.longitude);
    NumberAt(data, offset + 8, 8, little, p.latitude);
    AtConcat(data, offset, Encode(p.longitude, 8, little), Encode(p.latitude, 8, little));
  }

  ghost predicate PointsAre(data: seq<byte>, little: bool, offset: nat, ring: Ring) {
    PointsFit(ring) && At(data, offset, PointsBytes(little, ring))
  }

  lemma {:induction false} PointsGrow(data: seq<byte>, little: bool, offset: nat, ring: Ring, p: Point)
    requires offset + 16 * (|ring| + 1) <= |data|
    ensures PointsAre(data, little, offset, ring + [p]) <==>
      PointsAre(data, little, offset, ring) && PointAt(data, little, offset + 16 * |ring|) == p
  {
    PointsFitLast(ring, p);
    var next := offset + 16 * |ring|;
    PointRead(data, little, next, p);
    PointsAtLast(data, little, offset, ring, p, next);
  }

  lemma {:induction false} PointsAtLast(data: seq<byte>, little: bool, offset: nat, ring: Ring, p: Point, next: nat)
    requires next == offset + 16 * |ring|
    ensures At(data, offset, PointsBytes(little, ring + [p])) <==>
      At(data, offset, PointsBytes(little, ring)) && At(data, next, PointBytes(little, p))
  {
    PointsBytesLast(little, ring, p);
    AtSplit(data, offset, PointsBytes(little, ring + [p]), PointsBytes(little, ring), PointBytes(little, p), next);
  }

  lemma {:induction false} PointsFitLast(ring: Ring, p: Point)
    ensures PointsFit(ring + [p]) <==> PointsFit(ring) && PointFits(p)
  {
    var all := ring + [p];
    assert all[|ring|] == p;
    assert forall i :: 0 <= i < |ring| ==> ring[i] == all[i];
  }

  lemma {:induction false} PointsBytesLast(little: bool, ring: Ring, p: Point)
    ensures PointsBytes(little, ring + [p]) == PointsBytes(little, ring) + PointBytes(little, p)
  {
    assert (ring + [p])[..|ring|] == ring;
  }

  lemma {:induction false} PointsWritten(data: seq<byte>, little: bool, offset: nat, ring: Ring)
    requires PointsAre(data, little, offset, ring)
    ensures RingAt(data, little, offset, |ring|) == ring
    decreases |ring|
  {
    if ring != [] {
      var front, last := ring[..|ring| - 1], ring[|ring| - 1];
      LastOf(ring);
      PointsGrow(data, little, offset, front, last);
      PointsWritten(data, little, offset, front);
      NextPointWritten(data, little, offset, front, last);
    }
  }

  lemma {:induction false} NextPointWritten(data: seq<byte>, little: bool, offset: nat, ring: Ring, p: Point)
    requires PointsAre(data, little, offset, ring + [p]) && offset + 16 * |ring| <= |data|
    requires RingAt(data, little, offset, |ring|) == ring
    ensures RingAt(data, little, offset, |ring + [p]|) == ring + [p]
  {
    PointsGrow(data, little, offset, ring, p);
    RingAtLast(data, little, offset, |ring|);
  }

  lemma {:induction false} PointsRead(data: seq<byte>, little: bool, offset: nat, n: nat)
    requires offset + 16 * n <= |data|
    ensures PointsAre(data, little, offset, RingAt(data, little, offset, n))
    decreases n
  {
    if n > 0 {
      var front, last := RingAt(data, little, offset, n - 1), PointAt(data, little, offset + 16 * (n - 1));
      PointsRead(data, little, offset, n - 1);
      PointsReadOn(data, little, offset, n - 1, front, last);
      RingAtLast(data, little, offset, n - 1);
    }
  }

  lemma {:induction false} PointsReadOn(data: seq<byte>, little: bool, offset: nat, n: nat, ring: Ring, p: Point)
    requires offset + 16 * (n + 1) <= |data| && |ring| == n && p == PointAt(data, little, offset + 16 * n)
    requires PointsAre(data, little, offset, ring)
    ensures PointsAre(data, little, offset, ring + [p])
  {
    PointsGrow(data, little, offset, ring, p);
  }

  /** A ring that fits is found at an offset and ends where the next one starts. */
  ghost predicate RingIs(data: seq<byte>, little: bool, offset: nat, ring: Ring, next: nat) {
    RingFits(ring) && At(data, offset, RingBytes(little, ring)) && next == offset + |RingBytes(little, ring)|
  }

  lemma {:induction false} RingWritten(data: seq<byte>, little: bool, offset: nat, ring: Ring, next: nat)
    requires RingIs(data, little, offset, ring, next)
    ensures offset <= |data| && ParseRing(data, little, offset) == Good(ring, next)
  {
    AtConcat(data, offset, Encode(|ring|, COUNT, little), PointsBytes(little, ring));
    NumberAt(data, offset, COUNT, little, |ring|);
    PointsWritten(data, little, offset + COUNT, ring);
  }

  lemma {:induction false} RingRead(data: seq<byte>, little: bool, offset: nat)
    requires offset <= |data| && ParseRing(data, little, offset).Good?
    ensures var r := ParseRing(data, little, offset); RingIs(data, little, offset, r.value, r.position)
  {
    var n := CountAt(data, little, offset);
    var ring := RingAt(data, little, offset + COUNT, n);
    NumberAt(data, offset, COUNT, little, n);
    PointsRead(data, little, offset + COUNT, n);
    AtConcat(data, offset, Encode(n, COUNT, little), PointsBytes(little, ring));
  }

  ghost predicate RingsAre(data: seq<byte>, little: bool, start: nat, rings: seq<Ring>, next: nat) {
    RingsFit(rings) && At(data, start, RingsBytes(little, rings)) && next == start + |RingsBytes(little, rings)|
  }

  lemma {:induction false} RingsFitLast(rings: seq<Ring>, ring: Ring)
    ensures RingsFit(rings + [ring]) <==> RingsFit(rings) && RingFits(ring)
  {
    var all := rings + [ring];
    assert all[|rings|] == ring;
    assert forall i :: 0 <= i < |rings| ==> rings[i] == all[i];
  }

  lemma {:induction false} RingsBytesLast(little: bool, rings: seq<Ring>, ring: Ring)
    ensures RingsBytes(little, rings + [ring]) == RingsBytes(little, rings) + RingBytes(little, ring)
  {
    assert (rings + [ring])[..|rings|] == rings;
  }

  lemma {:induction false} RingsGrow(data: seq<byte>, little: bool, start: nat, rings: seq<Ring>, middle: nat,
                                     ring: Ring, next: nat)
    requires middle == start + |RingsBytes(little, rings)|
    ensures RingsAre(data, little, start, rings + [ring], next) <==>
      RingsAre(data, little, start, rings, middle) && RingIs(data, little, middle, ring, next)
  {
    RingsFitLast(rings, ring);
    RingsBytesLast(little, rings, ring);
    AtGrow(data, start, RingsBytes(little, rings), RingBytes(little, ring), RingsBytes(little, rings + [ring]),
           middle, next);
  }

  lemma {:induction false} RingsContinue(data: seq<byte>, little: bool, start: nat, rings: seq<Ring>, offset: nat,
                                         ring: Ring, next: nat)
    requires start <= |data| && offset <= |data|
    requires ParseRings(data, little, |rings|, start) == Good(rings, offset)
    requires ParseRing(data, little, offset) == Good(ring, next)
    ensures ParseRings(data, little, |rings| + 1, start) == Good(rings + [ring], next)
  {
  }

  lemma {:induction false} RingsWritten(data: seq<byte>, little: bool, start: nat, rings: seq<Ring>, next: nat)
    requires RingsAre(data, little, start, rings, next)
    ensures start <= |data| && ParseRings(data, little, |rings|, start) == Good(rings, next)
    decreases |rings|
  {
    if rings != [] {
      var front, last := rings[..|rings| - 1], rings[|rings| - 1];
      var middle := start + |RingsBytes(little, front)|;
      LastOf(rings);
      RingsGrow(data, little, start, front, middle, last, next);
      RingsWritten(data, little, start, front, middle);
      NextRingWritten(data, little, start, front, middle, last, next);
    }
  }

  lemma {:induction false} NextRingWritten(data: seq<byte>, little: bool, start: nat, rings: seq<Ring>, middle: nat,
                                           ring: Ring, next: nat)
    requires start <= |data| && middle <= |data| && ParseRings(data, little, |rings|, start) == Good(rings, middle)
    requires RingIs(data, little, middle, ring, next)
    ensures ParseRings(data, little, |rings + [ring]|, start) == Good(rings + [ring], next)
  {
    RingWritten(data, little, middle, ring, next);
    RingsContinue(data, little, start, rings, middle, ring, next);
  }

  ghost predicate RingsAreRead(data: seq<byte>, little: bool, number: nat, start: nat) {
    start <= |data| && ParseRings(data, little, number, start).Good?
  }

  ghost predicate RingsAreFound(data: seq<byte>, little: bool, number: nat, start: nat) {
    start <= |data| && RingsFound(data, little, start, ParseRings(data, little, number, start))
  }

  ghost predicate RingsFound(data: seq<byte>, little: bool, start: nat, r: Outcome<seq<Ring>>) {
    r.Good? && RingsAre(data, little, start, r.value, r.position)
  }

  lemma {:induction false} RingsRead(data: seq<byte>, little: bool, number: nat, start: nat)
    requires start <= |data| && ParseRings(data, little, number, start).Good?
    ensures var r := ParseRings(data, little, number, start); RingsAre(data, little, start, r.value, r.position)
  {
    ReadRingsAreFound(data, little, number, start);
  }

  lemma {:induction false} ReadRingsAreFound(data: seq<byte>, little: bool, number: nat, start: nat)
    requires RingsAreRead(data, little, number, start)
    ensures RingsAreFound(data, little, number, start)
    decreases number
  {
    if number == 0 {
      NoRingsFound(data, little, start);
    } else {
      RingsReadBefore(data, little, number, start);
      ReadRingsAreFound(data, little, number - 1, start);
      RingsFoundOn(data, little, number, start);
    }
  }

  lemma {:induction false} NoRingsFound(data: seq<byte>, little: bool, start: nat)
    requires start <= |data|
    ensures RingsAreFound(data, little, 0, start)
  {
  }

  lemma {:induction false} RingsReadBefore(data: seq<byte>, little: bool, number: nat, start: nat)
    requires number > 0 && RingsAreRead(data, little, number, start)
    ensures RingsAreRead(data, little, number - 1, start)
  {
  }

  lemma {:induction false} RingsLast(data: seq<byte>, little: bool, number: nat, start: nat)
    requires start <= |data| && number > 0 && ParseRings(data, little, number, start).Good?
    ensures var b := ParseRings(data, little, number - 1, start);
      b.Good? && var r := ParseRing(data, little, b.position);
      r.Good? && ParseRings(data, little, number, start) == Good(b.value + [r.value], r.position)
  {
  }

  lemma {:induction false} RingsFoundOn(data: seq<byte>, little: bool, number: nat, start: nat)
    requires number > 0 && RingsAreRead(data, little, number, start)
    requires RingsAreFound(data, little, number - 1, start)
    ensures RingsAreFound(data, little, number, start)
  {
    RingsLast(data, little, number, start);
    var before := ParseRings(data, little, number - 1, start);
    RingRead(data, little, before.position);
    RingAdded(data, little, start, before, ParseRing(data, little, before.position));
  }

  lemma {:induction false} RingAdded(data: seq<byte>, little: bool, start: nat, before: Outcome<seq<Ring>>,
                                     r: Outcome<Ring>)
    requires RingsFound(data, little, start, before)
    requires r.Good? && RingIs(data, little, before.position, r.value, r.position)
    ensures RingsFound(data, little, start, Good(before.value + [r.value], r.position))
  {
    RingsGrow(data, little, start, before.value, before.position, r.value, r.position);
  }

  // ---- polygons ----

  lemma {:induction false} BodyWritten(data: seq<byte>, little: bool, rings: seq<Ring>)
    requires |rings| < Values(COUNT) && RingsFit(rings) && At(data, 0, BodyBytes(little, rings))
    ensures ParsePolygonBody(data, little) == Good(PolygonOf(rings), |BodyBytes(little, rings)|)
  {
    AtConcat(data, 0, Encode(|rings|, COUNT, little), RingsBytes(little, rings));
    NumberAt(data, 0, COUNT, little, |rings|);
    RingsWritten(data, little, COUNT, rings, |BodyBytes(little, rings)|);
  }

  lemma {:induction false} BodyRead(data: seq<byte>, little: bool) returns (rings: seq<Ring>)
    requires ParsePolygonBody(data, little).Good?
    ensures |rings| < Values(COUNT) && RingsFit(rings) && At(data, 0, BodyBytes(little, rings))
    ensures ParsePolygonBody(data, little) == Good(PolygonOf(rings), |BodyBytes(little, rings)|)
  {
    var number := CountAt(data, little, 0);
    rings := ParseRings(data, little, number, COUNT).value;
    NumberAt(data, 0, COUNT, little, number);
    RingsRead(data, little, number, COUNT);
    AtConcat(data, 0, Encode(number, COUNT, little), RingsBytes(little, rings));
  }

  /** A header is found exactly if its flag and its type are. */
  lemma {:induction false} HeaderRead(data: seq<byte>, offset: nat, order: byte, kind: nat)
    requires offset + HEADER <= |data| && kind < Values(COUNT)
    ensures At(data, offset, HeaderBytes(order, kind)) <==>
      data[offset] == order && CountAt(data, IsLittle(order), offset + 1) == kind
  {
    var little := IsLittle(order);
    AtConcat(data, offset, [order], Encode(kind, COUNT, little));
    NumberAt(data, offset + 1, COUNT, little, kind);
    assert data[offset..offset + 1] == [data[offset]];
  }

  ghost predicate ShapeIs(data: seq<byte>, offset: nat, shape: Shape, next: nat) {
    ShapeFits(shape) && At(data, offset, ShapeBytes(shape)) && next == offset + |ShapeBytes(shape)|
  }

  lemma {:induction false} ShapeParts(data: seq<byte>, offset: nat, shape: Shape)
    requires offset + HEADER <= |data|
    ensures At(data, offset, ShapeBytes(shape)) <==>
      At(data, offset, HeaderBytes(shape.order, POLYGON))
      && At(data[offset + HEADER..], 0, BodyBytes(IsLittle(shape.order), shape.rings))
  {
    var body := BodyBytes(IsLittle(shape.order), shape.rings);
    AtConcat(data, offset, HeaderBytes(shape.order, POLYGON), body);
    AtSuffix(data, offset + HEADER, 0, body);
  }

  lemma {:induction false} PolygonKindFits()
    ensures POLYGON < Values(COUNT) && MULTIPOLYGON < Values(COUNT) && VERSION < Values(2)
  {
  }

  lemma {:induction false} ShapeWritten(data: seq<byte>, offset: nat, shape: Shape, next: nat)
    requires ShapeIs(data, offset, shape, next)
    ensures offset <= |data| && ParseMember(data, offset) == Good(PolygonOf(shape.rings), next)
  {
    PolygonKindFits();
    ShapeParts(data, offset, shape);
    HeaderRead(data, offset, shape.order, POLYGON);
    BodyWritten(data[offset + HEADER..], IsLittle(shape.order), shape.rings);
  }

  /** A polygon is written with its outer ring first. */
  lemma {:induction false} PolygonIsRead(data: seq<byte>, offset: nat, order: byte, polygon: Polygon, next: nat)
    requires ShapeIs(data, offset, Shape(order, [polygon.outer] + polygon.inners), next)
    ensures offset <= |data| && ParseMember(data, offset) == Good(polygon, next)
  {
    var shape := Shape(order, [polygon.outer] + polygon.inners);
    ShapeWritten(data, offset, shape, next);
    assert shape.rings[1..] == polygon.inners;
  }

  lemma {:induction false} ShapeRead(data: seq<byte>, offset: nat) returns (shape: Shape)
    requires offset <= |data| && ParseMember(data, offset).Good?
    ensures ParseMember(data, offset).value == PolygonOf(shape.rings)
    ensures ShapeIs(data, offset, shape, ParseMember(data, offset).position)
  {
    PolygonKindFits();
    var order := data[offset];
    var rings := BodyRead(data[offset + HEADER..], IsLittle(order));
    shape := Shape(order, rings);
    HeaderRead(data, offset, order, POLYGON);
    ShapeParts(data, offset, shape);
  }

  ghost predicate ShapesAre(data: seq<byte>, start: nat, shapes: seq<Shape>, next: nat) {
    ShapesFit(shapes) && At(data, start, ShapesBytes(shapes)) && next == start + |ShapesBytes(shapes)|
  }

  lemma {:induction false} ShapesFitLast(shapes: seq<Shape>, shape: Shape)
    ensures ShapesFit(shapes + [shape]) <==> ShapesFit(shapes) && ShapeFits(shape)
  {
    var all := shapes + [shape];
    assert all[|shapes|] == shape;
    assert forall i :: 0 <= i < |shapes| ==> shapes[i] == all[i];
  }

  lemma {:induction false} ShapesBytesLast(shapes: seq<Shape>, shape: Shape)
    ensures ShapesBytes(shapes + [shape]) == ShapesBytes(shapes) + ShapeBytes(shape)
  {
    assert (shapes + [shape])[..|shapes|] == shapes;
  }

  lemma {:induction false} ShapesGrow(data: seq<byte>, start: nat, shapes: seq<Shape>, middle: nat, shape: Shape,
                                      next: nat)
    requires middle == start + |ShapesBytes(shapes)|
    ensures ShapesAre(data, start, shapes + [shape], next) <==>
      ShapesAre(data, start, shapes, middle) && ShapeIs(data, middle, shape, next)
  {
    ShapesFitLast(shapes, shape);
    ShapesBytesLast(shapes, shape);
    AtGrow(data, start, ShapesBytes(shapes), ShapeBytes(shape), ShapesBytes(shapes + [shape]), middle, next);
  }

  lemma {:induction false} PolygonsContinue(data: seq<byte>, start: nat, polygons: seq<Polygon>, number: nat,
                                            offset: nat, polygon: Polygon, next: nat)
    requires start <= |data| && offset <= |data|
    requires ParsePolygons(data, number, start) == Good(polygons, offset)
    requires ParseMember(data, offset) == Good(polygon, next)
    ensures ParsePolygons(data, number + 1, start) == Good(polygons + [polygon], next)
  {
  }

  lemma {:induction false} PolygonsGrow(shapes: seq<Shape>, shape: Shape)
    ensures PolygonsOf(shapes + [shape]) == PolygonsOf(shapes) + [PolygonOf(shape.rings)]
  {
    assert (shapes + [shape])[..|shapes|] == shapes;
  }

  lemma {:induction false} ShapesWritten(data: seq<byte>, start: nat, shapes: seq<Shape>, next: nat)
    requires ShapesAre(data, start, shapes, next)
    ensures start <= |data| && ParsePolygons(data, |shapes|, start) == Good(PolygonsOf(shapes), next)
    decreases |shapes|
  {
    if shapes != [] {
      var front, last := shapes[..|shapes| - 1], shapes[|shapes| - 1];
      var middle := start + |ShapesBytes(front)|;
      LastOf(shapes);
      ShapesGrow(data, start, front, middle, last, next);
      ShapesWritten(data, start, front, middle);
      NextShapeWritten(data, start, front, middle, last, next);
    }
  }

  lemma {:induction false} NextShapeWritten(data: seq<byte>, start: nat, shapes: seq<Shape>, middle: nat,
                                            shape: Shape, next: nat)
    requires start <= |data| && middle <= |data|
    requires ParsePolygons(data, |shapes|, start) == Good(PolygonsOf(shapes), middle)
    requires ShapeIs(data, middle, shape, next)
    ensures ParsePolygons(data, |shapes + [shape]|, start) == Good(PolygonsOf(shapes + [shape]), next)
  {
    ShapeWritten(data, middle, shape, next);
    PolygonsContinue(data, start, PolygonsOf(shapes), |shapes|, middle, PolygonOf(shape.rings), next);
    PolygonsGrow(shapes, shape);
  }

  lemma {:induction false} ShapesRead(data: seq<byte>, number: nat, start: nat) returns (shapes: seq<Shape>)
    requires PolygonsRead(data, number, start)
    ensures ShapesReadAs(data, number, start, shapes)
    decreases number
  {
    if number == 0 {
      shapes := [];
      NoShapesRead(data, start);
    } else {
      PolygonsReadBefore(data, number, start);
      var front := ShapesRead(data, number - 1, start);
      shapes := ShapesReadOn(data, number, start, front);
    }
  }

  ghost predicate PolygonsRead(data: seq<byte>, number: nat, start: nat) {
    start <= |data| && ParsePolygons(data, number, start).Good?
  }

  lemma {:induction false} PolygonsReadBefore(data: seq<byte>, number: nat, start: nat)
    requires number > 0 && PolygonsRead(data, number, start)
    ensures PolygonsRead(data, number - 1, start)
  {
  }

  lemma {:induction false} NoShapesRead(data: seq<byte>, start: nat)
    requires start <= |data|
    ensures ShapesReadAs(data, 0, start, [])
  {
  }

  lemma {:induction false} PolygonsLast(data: seq<byte>, number: nat, start: nat)
    requires start <= |data| && number > 0 && ParsePolygons(data, number, start).Good?
    ensures var b := ParsePolygons(data, number - 1, start);
      b.Good? && var m := ParseMember(data, b.position);
      m.Good? && ParsePolygons(data, number, start) == Good(b.value + [m.value], m.position)
  {
  }

  /** A number of polygons is read and found as shapes. */
  ghost predicate ShapesReadAs(data: seq<byte>, number: nat, start: nat, shapes: seq<Shape>) {
    |shapes| == number && start <= |data| && ReadAs(data, start, ParsePolygons(data, number, start), shapes)
  }

  ghost predicate ReadAs(data: seq<byte>, start: nat, r: Outcome<seq<Polygon>>, shapes: seq<Shape>) {
    r.Good? && r.value == PolygonsOf(shapes) && ShapesAre(data, start, shapes, r.position)
  }

  lemma {:induction false} ShapesReadOn(data: seq<byte>, number: nat, start: nat, front: seq<Shape>)
    returns (shapes: seq<Shape>)
    requires number > 0 && PolygonsRead(data, number, start) && ShapesReadAs(data, number - 1, start, front)
    ensures ShapesReadAs(data, number, start, shapes)
  {
    PolygonsLast(data, number, start);
    var before := ParsePolygons(data, number - 1, start);
    var last := ShapeRead(data, before.position);
    shapes := ShapeAdded(data, start, before, ParseMember(data, before.position), front, last);
  }

  lemma {:induction false} ShapeAdded(data: seq<byte>, start: nat, before: Outcome<seq<Polygon>>, m: Outcome<Polygon>,
                                      front: seq<Shape>, last: Shape)
    returns (shapes: seq<Shape>)
    requires ReadAs(data, start, before, front)
    requires m.Good? && m.value == PolygonOf(last.rings) && ShapeIs(data, before.position, last, m.position)
    ensures |shapes| == |front| + 1 && ReadAs(data, start, Good(before.value + [m.value], m.position), shapes)
  {
    shapes := front + [last];
    ShapesGrow(data, start, front, before.position, last, m.position);
    PolygonsGrow(front, last);
  }

  // ---- geometries ----

  /** A single polygon is read as a polygon of a multi-polygon is. */
  lemma {:induction false} SingleIsMember(data: seq<byte>)
    requires |data| >= HEADER && CountAt(data, IsLittle(data[0]), 1) == POLYGON
    ensures var m := ParseMember(data, 0);
      ParseWkb(data) == if m.Good? then Good([m.value], m.position) else Bad(m.reason, m.position)
  {
  }

  lemma {:induction false} SingleWritten(data: seq<byte>, shape: Shape)
    requires ShapeFits(shape) && At(data, 0, ShapeBytes(shape))
    ensures ParseWkb(data).Good? && ParseWkb(data).value == [PolygonOf(shape.rings)]
  {
    ShapeWritten(data, 0, shape, |ShapeBytes(shape)|);
    SingleIsMember(data);
  }

  lemma {:induction false} MultiParts(data: seq<byte>, order: byte, shapes: seq<Shape>)
    ensures At(data, 0, GeometryBytes(Multi(order, shapes))) <==>
      At(data, 0, HeaderBytes(order, MULTIPOLYGON))
      && At(data, HEADER, Encode(|shapes|, COUNT, IsLittle(order)))
      && At(data, HEADER + COUNT, ShapesBytes(shapes))
  {
    AtThree(data, HeaderBytes(order, MULTIPOLYGON), Encode(|shapes|, COUNT, IsLittle(order)), ShapesBytes(shapes));
  }

  lemma {:induction false} MultiWritten(data: seq<byte>, order: byte, shapes: seq<Shape>)
    requires |shapes| < Values(COUNT) && ShapesFit(shapes) && At(data, 0, GeometryBytes(Multi(order, shapes)))
    ensures ParseWkb(data).Good? && ParseWkb(data).value == PolygonsOf(shapes)
  {
    PolygonKindFits();
    MultiParts(data, order, shapes);
    HeaderRead(data, 0, order, MULTIPOLYGON);
    NumberAt(data, HEADER, COUNT, IsLittle(order), |shapes|);
    var next := HEADER + COUNT + |ShapesBytes(shapes)|;
    ShapesWritten(data, HEADER + COUNT, shapes, next);
    MultiParsed(data, order, |shapes|, PolygonsOf(shapes), next);
  }

  lemma {:induction false} MultiParsed(data: seq<byte>, order: byte, number: nat, polygons: seq<Polygon>, next: nat)
    requires |data| >= HEADER + COUNT && data[0] == order
    requires CountAt(data, IsLittle(order), 1) == MULTIPOLYGON && CountAt(data, IsLittle(order), HEADER) == number
    requires ParsePolygons(data, number, HEADER + COUNT) == Good(polygons, next)
    ensures ParseWkb(data) == Good(polygons, next)
  {
  }

  lemma {:induction false} GeometryWritten(data: seq<byte>, g: Geometry)
    requires GeometryFits(g) && At(data, 0, GeometryBytes(g))
    ensures ParseWkb(data).Good? && ParseWkb(data).value == GeometryPolygons(g)
  {
    match g
    case Single(shape) => SingleWritten(data, shape);
    case Multi(order, shapes) => MultiWritten(data, order, shapes);
  }

  lemma {:induction false} SingleRead(data: seq<byte>) returns (shape: Shape)
    requires |data| >= HEADER && CountAt(data, IsLittle(data[0]), 1) == POLYGON && ParseWkb(data).Good?
    ensures ShapeFits(shape) && At(data, 0, ShapeBytes(shape)) && ParseWkb(data).value == [PolygonOf(shape.rings)]
  {
    SingleIsMember(data);
    shape := ShapeRead(data, 0);
  }

  lemma {:induction false} MultiRead(data: seq<byte>) returns (shapes: seq<Shape>)
    requires |data| >= HEADER && CountAt(data, IsLittle(data[0]), 1) == MULTIPOLYGON && ParseWkb(data).Good?
    ensures |shapes| < Values(COUNT) && ShapesFit(shapes) && At(data, 0, GeometryBytes(Multi(data[0], shapes)))
    ensures ParseWkb(data).value == PolygonsOf(shapes)
  {
    PolygonKindFits();
    var order := data[0];
    var number := CountAt(data, IsLittle(order), HEADER);
    shapes := ShapesRead(data, number, HEADER + COUNT);
    HeaderRead(data, 0, order, MULTIPOLYGON);
    MultiHeader(data, order, shapes, number);
  }

  lemma {:induction false} MultiHeader(data: seq<byte>, order: byte, shapes: seq<Shape>, number: nat)
    requires At(data, 0, HeaderBytes(order, MULTIPOLYGON)) && At(data, HEADER + COUNT, ShapesBytes(shapes))
    requires CountAt(data, IsLittle(order), HEADER) == number == |shapes|
    ensures number < Values(COUNT) && At(data, 0, GeometryBytes(Multi(order, shapes)))
  {
    NumberAt(data, HEADER, COUNT, IsLittle(order), number);
    MultiParts(data, order, shapes);
  }

  lemma {:induction false} GeometryRead(data: seq<byte>) returns (g: Geometry)
    requires ParseWkb(data).Good?
    ensures GeometryFits(g) && At(data, 0, GeometryBytes(g)) && ParseWkb(data).value == GeometryPolygons(g)
  {
    if CountAt(data, IsLittle(data[0]), 1) == POLYGON {
      var shape := SingleRead(data);
      g := Single(shape);
    } else {
      var shapes := MultiRead(data);
      g := Multi(data[0], shapes);
    }
  }

  // ---- entries ----

  lemma {:induction false} EntryParts(data: seq<byte>, offset: nat, code: nat, payload: seq<byte>)
    ensures At(data, offset, EntryBytes(code, payload)) <==>
      At(data, offset, Encode(code, 2, true)) && At(data, offset + 2, Encode(|payload|, 4, true))
      && At(data, offset + 6, payload)
  {
    AtConcat(data, offset, Encode(code, 2, true) + Encode(|payload|, 4, true), payload);
    AtConcat(data, offset, Encode(code, 2, true), Encode(|payload|, 4, true));
  }

  /** The fields of an entry are found at an offset. */
  ghost predicate FieldsAre(data: seq<byte>, offset: nat, code: nat, payload: seq<byte>) {
    offset + 6 + |payload| <= |data|
    && Decode(data[offset..offset + 2], true) == code
    && Decode(data[offset + 2..offset + 6], true) == |payload|
    && data[offset + 6..offset + 6 + |payload|] == payload
  }

  lemma {:induction false} EntryFields(data: seq<byte>, offset: nat, code: nat, payload: seq<byte>)
    ensures FieldsAre(data, offset, code, payload) <==>
      code < Values(2) && |payload| < Values(4) && At(data, offset, EntryBytes(code, payload))
  {
    EntryParts(data, offset, code, payload);
    if offset + 6 + |payload| <= |data| {
      NumberAt(data, offset, 2, true, code);
      NumberAt(data, offset + 2, 4, true, |payload|);
    }
  }

  lemma {:induction false} EntryParsed(data: seq<byte>, offset: nat, code: nat, payload: seq<byte>)
    requires FieldsAre(data, offset, code, payload) && ParseWkb(payload).Good?
    ensures ParseEntry(data, offset) == Good(Entry(code, ParseWkb(payload).value), offset + 6 + |payload|)
  {
    EntryHasPayload(data, offset, code, payload);
  }

  lemma {:induction false} EntryHasPayload(data: seq<byte>, offset: nat, code: nat, payload: seq<byte>)
    requires FieldsAre(data, offset, code, payload)
    ensures ParseEntry(data, offset) == ParsePayload(code, payload, offset + 6)
  {
    EntryIsSized(data, offset, code, |payload|);
    SizedHasPayload(data, code, |payload|, offset + 6);
  }

  lemma {:induction false} EntryIsSized(data: seq<byte>, offset: nat, code: nat, size: nat)
    requires offset + 6 <= |data|
    requires code == Decode(data[offset..offset + 2], true) && size == Decode(data[offset + 2..offset + 6], true)
    ensures ParseEntry(data, offset) == ParseSized(data, code, size, offset + 6)
  {
  }

  lemma {:induction false} SizedHasPayload(data: seq<byte>, code: nat, size: nat, start: nat)
    requires start + size <= |data|
    ensures ParseSized(data, code, size, start) == ParsePayload(code, data[start..start + size], start)
  {
  }

  lemma {:induction false} EntryRead(data: seq<byte>, offset: nat) returns (code: nat, payload: seq<byte>)
    requires offset < |data| && ParseEntry(data, offset).Good?
    ensures FieldsAre(data, offset, code, payload) && ParseWkb(payload).Good?
    ensures ParseEntry(data, offset) == Good(Entry(code, ParseWkb(payload).value), offset + 6 + |payload|)
  {
    code := Decode(data[offset..offset + 2], true);
    payload := data[offset + 6..offset + 6 + Decode(data[offset + 2..offset + 6], true)];
  }

  ghost predicate CountryIs(data: seq<byte>, offset: nat, c: Country, next: nat) {
    CountryFits(c) && At(data, offset, CountryBytes(c)) && next == offset + |CountryBytes(c)|
  }

  lemma {:induction false} PayloadWritten(c: Country)
    requires GeometryFits(c.geometry)
    ensures var r := ParseWkb(PayloadBytes(c)); r.Good? && r.value == GeometryPolygons(c.geometry)
  {
    var payload := PayloadBytes(c);
    assert At(payload, 0, payload);
    AtConcat(payload, 0, GeometryBytes(c.geometry), c.padding);
    GeometryWritten(payload, c.geometry);
  }

  lemma {:induction false} CountryWritten(data: seq<byte>, offset: nat, c: Country, next: nat)
    requires CountryIs(data, offset, c, next)
    ensures offset < |data| && ParseEntry(data, offset) == Good(EntryOf(c), next)
  {
    PayloadWritten(c);
    EntryFields(data, offset, c.code, PayloadBytes(c));
    EntryParsed(data, offset, c.code, PayloadBytes(c));
  }

  lemma {:induction false} PayloadRead(payload: seq<byte>, code: nat) returns (c: Country)
    requires ParseWkb(payload).Good?
    ensures c.code == code && GeometryFits(c.geometry) && PayloadBytes(c) == payload
    ensures ParseWkb(payload).value == GeometryPolygons(c.geometry)
  {
    var geometry := GeometryRead(payload);
    c := Country(code, geometry, payload[|GeometryBytes(geometry)|..]);
  }

  lemma {:induction false} CountryRead(data: seq<byte>, offset: nat) returns (c: Country)
    requires offset < |data| && ParseEntry(data, offset).Good?
    ensures ParseEntry(data, offset).value == EntryOf(c)
    ensures CountryIs(data, offset, c, ParseEntry(data, offset).position)
  {
    var code, payload := EntryRead(data, offset);
    c := PayloadRead(payload, code);
    EntryFields(data, offset, code, payload);
  }

  // ---- files ----

  ghost predicate Fits(cs: seq<Country>) {
    forall i :: 0 <= i < |cs| ==> CountryFits(cs[i])
  }

  ghost predicate CountriesAre(data: seq<byte>, offset: nat, cs: seq<Country>) {
    Fits(cs) && At(data, offset, CountriesBytes(cs)) && offset + |CountriesBytes(cs)| == |data|
  }

  lemma {:induction false} FitsFirst(c: Country, cs: seq<Country>)
    ensures Fits([c] + cs) <==> CountryFits(c) && Fits(cs)
  {
    var all := [c] + cs;
    assert all[0] == c;
    assert forall i :: 0 <= i < |cs| ==> cs[i] == all[i + 1];
  }

  lemma {:induction false} CountriesBytesFirst(c: Country, cs: seq<Country>)
    ensures CountriesBytes([c] + cs) == CountryBytes(c) + CountriesBytes(cs)
  {
    assert ([c] + cs)[1..] == cs;
  }

  lemma {:induction false} EntriesFirst(calls: seq<Entry>, c: Country, cs: seq<Country>)
    ensures calls + EntriesOf([c] + cs) == calls + [EntryOf(c)] + EntriesOf(cs)
  {
    assert ([c] + cs)[1..] == cs;
  }

  lemma {:induction false} CountriesSplit(data: seq<byte>, offset: nat, c: Country, cs: seq<Country>, next: nat)
    requires next == offset + |CountryBytes(c)|
    ensures CountriesAre(data, offset, [c] + cs) <==> CountryIs(data, offset, c, next) && CountriesAre(data, next, cs)
  {
    FitsFirst(c, cs);
    CountriesAtFirst(data, offset, c, cs, next);
  }

  lemma {:induction false} CountriesAtFirst(data: seq<byte>, offset: nat, c: Country, cs: seq<Country>, next: nat)
    requires next == offset + |CountryBytes(c)|
    ensures At(data, offset, CountriesBytes([c] + cs))
       <==> At(data, offset, CountryBytes(c)) && At(data, next, CountriesBytes(cs))
    ensures offset + |CountriesBytes([c] + cs)| == next + |CountriesBytes(cs)|
  {
    CountriesBytesFirst(c, cs);
    AtSplit(data, offset, CountriesBytes([c] + cs), CountryBytes(c), CountriesBytes(cs), next);
  }

  lemma {:induction false} EntriesContinue(data: seq<byte>, offset: nat, calls: seq<Entry>, entry: Entry, next: nat)
    requires offset < |data| && ParseEntry(data, offset) == Good(entry, next)
    ensures ReadEntries(data, offset, calls) == ReadEntries(data, next, calls + [entry])
  {
  }

  lemma {:induction false} CountriesWritten(data: seq<byte>, offset: nat, cs: seq<Country>, calls: seq<Entry>)
    requires CountriesAre(data, offset, cs)
    ensures ReadsAll(data, offset, calls, calls + EntriesOf(cs))
    decreases |cs|
  {
    if cs == [] {
      NoneWritten(data, offset, calls);
    } else {
      var c, rest := cs[0], cs[1..];
      assert cs == [c] + rest;
      var next := offset + |CountryBytes(c)|;
      CountriesSplit(data, offset, c, rest, next);
      CountriesWritten(data, next, rest, calls + [EntryOf(c)]);
      FirstWritten(data, offset, c, next, calls, calls + [EntryOf(c)] + EntriesOf(rest));
      EntriesFirst(calls, c, rest);
    }
  }

  /** From an offset on, the rest of the data is accepted and some entries are passed on in all. */
  ghost predicate ReadsAll(data: seq<byte>, offset: nat, calls: seq<Entry>, all: seq<Entry>) {
    offset <= |data| && ReadEntries(data, offset, calls) == Reading(all, Done(|data|))
  }

  lemma {:induction false} NoneWritten(data: seq<byte>, offset: nat, calls: seq<Entry>)
    requires CountriesAre(data, offset, [])
    ensures ReadsAll(data, offset, calls, calls + EntriesOf([]))
  {
    assert calls + [] == calls;
  }

  lemma {:induction false} FirstWritten(data: seq<byte>, offset: nat, c: Country, next: nat, calls: seq<Entry>,
                                        all: seq<Entry>)
    requires CountryIs(data, offset, c, next) && ReadsAll(data, next, calls + [EntryOf(c)], all)
    ensures ReadsAll(data, offset, calls, all)
  {
    CountryWritten(data, offset, c, next);
    EntriesContinue(data, offset, calls, EntryOf(c), next);
  }

  lemma {:induction false} CountriesRead(data: seq<byte>, offset: nat, calls: seq<Entry>) returns (cs: seq<Country>)
    requires offset <= |data| && ReadEntries(data, offset, calls).status.Done?
    ensures CountriesAre(data, offset, cs) && ReadEntries(data, offset, calls).calls == calls + EntriesOf(cs)
    decreases |data| - offset
  {
    if offset == |data| {
      cs := [];
      assert calls + [] == calls;
    } else {
      var c := CountryRead(data, offset);
      var next := ParseEntry(data, offset).position;
      var rest := CountriesRead(data, next, calls + [EntryOf(c)]);
      cs := [c] + rest;
      CountriesSplit(data, offset, c, rest, next);
      EntriesFirst(calls, c, rest);
    }
  }

  /** The data holds some countries from an offset on, and no other one after them. */
  ghost predicate EndsAfter(data: seq<byte>, offset: nat, cs: seq<Country>, end: nat) {
    && Fits(cs) && At(data, offset, CountriesBytes(cs)) && end == offset + |CountriesBytes(cs)|
    && forall c, next :: !CountryIs(data, end, c, next)
  }

  lemma {:induction false} NoCountry(data: seq<byte>, offset: nat, c: Country, next: nat)
    requires offset < |data| && ParseEntry(data, offset).Bad?
    ensures !CountryIs(data, offset, c, next)
  {
    if CountryIs(data, offset, c, next) {
      CountryWritten(data, offset, c, next);
    }
  }

  lemma {:induction false} EndsAtOnce(data: seq<byte>, offset: nat)
    requires offset < |data| && ParseEntry(data, offset).Bad?
    ensures EndsAfter(data, offset, [], offset)
  {
    forall c, next ensures !CountryIs(data, offset, c, next) {
      NoCountry(data, offset, c, next);
    }
  }

  lemma {:induction false} EndsLater(data: seq<byte>, offset: nat, c: Country, next: nat, cs: seq<Country>, end: nat)
    requires CountryIs(data, offset, c, next) && EndsAfter(data, next, cs, end)
    ensures EndsAfter(data, offset, [c] + cs, end)
  {
    FitsFirst(c, cs);
    CountriesAtFirst(data, offset, c, cs, next);
  }

  lemma {:induction false} EntriesFailed(data: seq<byte>, offset: nat, calls: seq<Entry>)
    returns (cs: seq<Country>, end: nat)
    requires offset <= |data| && ReadEntries(data, offset, calls).status.Failed?
    ensures EndsAfter(data, offset, cs, end) && ReadEntries(data, offset, calls).calls == calls + EntriesOf(cs)
    ensures end <= ReadEntries(data, offset, calls).status.position
    decreases |data| - offset
  {
    if ParseEntry(data, offset).Bad? {
      cs, end := [], offset;
      assert calls + [] == calls;
      EndsAtOnce(data, offset);
      FailsWithin(data, offset);
    } else {
      var c := CountryRead(data, offset);
      var next := ParseEntry(data, offset).position;
      cs, end := EntriesFailed(data, next, calls + [EntryOf(c)]);
      EndsLater(data, offset, c, next, cs, end);
      EntriesFirst(calls, c, cs);
      cs := [c] + cs;
    }
  }

  lemma {:induction false} FailsWithin(data: seq<byte>, offset: nat)
    requires offset < |data|
    ensures offset <= ParseEntry(data, offset).position
  {
  }

  /**
   Data that starts like a file of the format and then does not: the entries of the countries before the
   place that is none are passed on, and the failure is reported from there on.
   */
  lemma {:induction false} FailureIsLocated(data: seq<byte>) returns (cs: seq<Country>, end: nat)
    requires At(data, 0, Encode(VERSION, 2, true)) && ReadCountryData(data).status.Failed?
    ensures EndsAfter(data, 2, cs, end) && ReadCountryData(data).calls == EntriesOf(cs)
    ensures end <= ReadCountryData(data).status.position
  {
    PolygonKindFits();
    NumberAt(data, 0, 2, true, VERSION);
    cs, end := EntriesFailed(data, 2, []);
  }

  /** Every file of the format is accepted and its entries are passed on in order. */
  lemma {:induction false} WrittenIsRead(cs: seq<Country>)
    requires Fits(cs)
    ensures ReadCountryData(FileBytes(cs)) == Reading(EntriesOf(cs), Done(|FileBytes(cs)|))
  {
    var data, version := FileBytes(cs), Encode(VERSION, 2, true);
    PolygonKindFits();
    assert At(data, 0, data);
    AtConcat(data, 0, version, CountriesBytes(cs));
    NumberAt(data, 0, 2, true, VERSION);
    CountriesWritten(data, 2, cs, []);
  }

  /** Nothing else is accepted: accepted data is a file of the format, whose entries are those passed on. */
  lemma {:induction false} ReadWasWritten(data: seq<byte>) returns (cs: seq<Country>)
    requires ReadCountryData(data).status.Done?
    ensures Fits(cs) && data == FileBytes(cs) && ReadCountryData(data).calls == EntriesOf(cs)
  {
    cs := CountriesRead(data, 2, []);
    NumberAt(data, 0, 2, true, VERSION);
    AtConcat(data, 0, Encode(VERSION, 2, true), CountriesBytes(cs));
    AtWhole(data, FileBytes(cs));
  }

  /** The reader accepts exactly the files of the format. */
  lemma {:induction false} AcceptsExactlyTheFormat(data: seq<byte>)
    ensures ReadCountryData(data).status.Done? <==> exists cs :: Fits(cs) && data == FileBytes(cs)
  {
    if ReadCountryData(data).status.Done? {
      var cs := ReadWasWritten(data);
    }
    if exists cs :: Fits(cs) && data == FileBytes(cs) {
      var cs :| Fits(cs) && data == FileBytes(cs);
      WrittenIsRead(cs);
    }
  }

  lemma {:induction false} EntryAt(cs: seq<Country>, i: nat)
    requires i < |cs|
    ensures |EntriesOf(cs)| == |cs| && EntriesOf(cs)[i] == EntryOf(cs[i])
    decreases |cs|
  {
    if |cs| > 1 {
      EntryAt(cs[1..], if i == 0 then 0 else i - 1);
    }
  }

  /** Loading a file keeps, of the countries with the same code, the polygons of the first. */
  lemma {:induction false} FirstCountryIsLoaded(cs: seq<Country>, i: nat)
    requires Fits(cs) && i < |cs| && forall j :: 0 <= j < i ==> cs[j].code != cs[i].code
    ensures var countries := EmplaceAll(ReadCountryData(FileBytes(cs)).calls);
      cs[i].code in countries && countries[cs[i].code] == GeometryPolygons(cs[i].geometry)
  {
    var es := EntriesOf(cs);
    forall j | 0 <= j <= i ensures |es| == |cs| && es[j] == EntryOf(cs[j]) {
      EntryAt(cs, j);
    }
    WrittenIsRead(cs);
    assert forall j :: 0 <= j < i ==> es[j].code != es[i].code;
    FirstEntryIsKept(es, i);
  }

  // ---- a file byte by byte ----

  lemma {:induction false} TwoBytes(n: nat)
    requires n < 65536
    ensures Encode(n, 2, true) == [(n % 256) as byte, (n / 256) as byte]
  {
    assert ToLittle(n / 256 / 256, 0) == [];
    assert ToLittle(n / 256, 1) == [(n / 256) as byte];
  }

  lemma {:induction false} SmallCount(n: nat)
    requires n < 256
    ensures Encode(n, 4, true) == [n as byte, 0, 0, 0] && Encode(n, 4, false) == [0, 0, 0, n as byte]
  {
    assert ToLittle(0, 0) == [] && ToLittle(0, 1) == [0] && ToLittle(0, 2) == [0, 0] && ToLittle(0, 3) == [0, 0, 0];
    assert ToLittle(n, 4) == [n as byte, 0, 0, 0];
    ReverseFour(n as byte, 0, 0, 0);
  }

  lemma {:induction false} ReverseFour(a: byte, b: byte, c: byte, d: byte)
    ensures Reverse([a, b, c, d]) == [d, c, b, a]
  {
    ReverseConcat([a, b], [c, d]);
    ReverseConcat([a], [b]);
    ReverseConcat([c], [d]);
    assert [a, b] + [c, d] == [a, b, c, d] && [a] + [b] == [a, b] && [c] + [d] == [c, d];
  }

  /** A little endian polygon without rings and a big endian collection without polygons. */
  const EMPTY_SHAPES: seq<Country> := [Country(300, Single(Shape(1, [])), []), Country(301, Multi(2, []), [])]

  lemma {:induction false} FirstPayload()
    ensures GeometryBytes(Single(Shape(1, []))) == [1, 3, 0, 0, 0, 0, 0, 0, 0]
  {
    SmallCount(3);
    SmallCount(0);
  }

  lemma {:induction false} SecondPayload()
    ensures GeometryBytes(Multi(2, [])) == [2, 0, 0, 0, 6, 0, 0, 0, 0]
  {
    SmallCount(6);
    SmallCount(0);
  }

  lemma {:induction false} NineByteEntry(code: nat, geometry: Geometry, payload: seq<byte>)
    requires 256 <= code < 512 && GeometryBytes(geometry) == payload && |payload| == 9
    ensures CountryBytes(Country(code, geometry, [])) == [(code - 256) as byte, 1, 9, 0, 0, 0] + payload
  {
    TwoBytes(code);
    SmallCount(9);
    Unchanged(payload);
  }

  const SMALL_FILE: seq<byte> :=
    [1, 0] + (([44, 1, 9, 0, 0, 0] + [1, 3, 0, 0, 0, 0, 0, 0, 0])
              + ([45, 1, 9, 0, 0, 0] + [2, 0, 0, 0, 6, 0, 0, 0, 0]))

  lemma {:induction false} SmallFileBytes()
    ensures FileBytes(EMPTY_SHAPES) == SMALL_FILE
  {
    FirstPayload();
    SecondPayload();
    NineByteEntry(300, EMPTY_SHAPES[0].geometry, [1, 3, 0, 0, 0, 0, 0, 0, 0]);
    NineByteEntry(301, EMPTY_SHAPES[1].geometry, [2, 0, 0, 0, 6, 0, 0, 0, 0]);
    TwoBytes(1);
    TwoCountries(EMPTY_SHAPES[0], EMPTY_SHAPES[1]);
  }

  lemma {:induction false} SmallEntries()
    ensures EntriesOf(EMPTY_SHAPES) == [Entry(300, [Polygon([], [])]), Entry(301, [])]
  {
    TwoCountries(EMPTY_SHAPES[0], EMPTY_SHAPES[1]);
    assert [Shape(1, [])][..0] == [];
  }

  /** What is read from the bytes of a small file. */
  lemma {:induction false} SmallFileIsRead()
    ensures ReadCountryData(SMALL_FILE)
         == Reading([Entry(300, [Polygon([], [])]), Entry(301, [])], Done(|SMALL_FILE|))
  {
    SmallFileBytes();
    SmallEntries();
    SmallFits();
    WrittenIsRead(EMPTY_SHAPES);
  }

  lemma {:induction false} TwoCountries(a: Country, b: Country)
    ensures CountriesBytes([a, b]) == CountryBytes(a) + CountryBytes(b)
    ensures EntriesOf([a, b]) == [EntryOf(a), EntryOf(b)]
  {
    assert [a, b] == [a] + [b] && [b] == [b] + [];
    CountriesBytesFirst(a, [b]);
    CountriesBytesFirst(b, []);
    Unchanged(CountryBytes(b));
    EntriesFirst([], a, [b]);
    EntriesFirst([], b, []);
  }

  lemma {:induction false} Unchanged(s: seq<byte>)
    ensures s + [] == s
  {
  }

  lemma {:induction false} SmallFits()
    ensures Fits(EMPTY_SHAPES)
  {
    SmallValues();
    FirstPayload();
    SecondPayload();
  }

  lemma {:induction false} SmallValues()
    ensures Values(2) == 65536 && Values(4) == 65536 * 65536
  {
    assert Values(1) == 256;
    assert Values(3) == 65536 * 256;
  }
}
