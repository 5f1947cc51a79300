/**
 The country data file: a version, then entries of a country code, a size and a geometry in OGC
 well-known binary (WKB).  Coordinates are kept as their 64 bit patterns.
 */
module CountryData {
  import opened Bytes

  datatype Point = Point(longitude: nat, latitude: nat)

  type Ring = seq<Point>

  datatype Polygon = Polygon(outer: Ring, inners: seq<Ring>)

  datatype Entry = Entry(code: nat, polygons: seq<Polygon>)

  datatype Reason =
    | MissingVersion | UnsupportedVersion | TruncatedEntry | PayloadTooLong
    | MissingHeader | UnsupportedType | MissingPolygonCount | MissingPolygonHeader | UnexpectedType
    | MissingRingCount | MissingPointCount | MissingPointData

  datatype Outcome<+T> = Good(value: T, position: nat) | Bad(reason: Reason, position: nat)

  const VERSION: nat := 1
  const POLYGON: nat := 3
  const MULTIPOLYGON: nat := 6
  const HEADER: nat := 5
  const COUNT: nat := 4

  // ---- polygons ----

  function PointAt(data: seq<byte>, little: bool, offset: nat): Point
    requires offset + 16 <= |data|
  {
    Point(Decode(data[offset..offset + 8], little), Decode(data[offset + 8..offset + 16], little))
  }

  function RingAt(data: seq<byte>, little: bool, offset: nat, n: nat): (ring: Ring)
    requires offset + 16 * n <= |data|
    ensures |ring| == n
  {
    if n == 0 then [] else RingAt(data, little, offset, n - 1) + [PointAt(data, little, offset + 16 * (n - 1))]
  }

  function CountAt(data: seq<byte>, little: bool, offset: nat): nat
    requires offset + COUNT <= |data|
  {
    Decode(data[offset..offset + COUNT], little)
  }

  /** The ring at an offset and where the next one starts, or the failure to read it. */
  function ParseRing(data: seq<byte>, little: bool, offset: nat): (r: Outcome<Ring>)
    requires offset <= |data|
    ensures r.position <= |data|
  {
    if |data| - offset < COUNT then Bad(MissingPointCount, offset)
    else
      var n := CountAt(data, little, offset);
      var start := offset + COUNT;
      if |data| - start < 16 * n then Bad(MissingPointData, start)
      else Good(RingAt(data, little, start, n), start + 16 * n)
  }

  /** The first rings of a polygon and where the next one starts, or the failure to read them. */
  function ParseRings(data: seq<byte>, little: bool, number: nat, start: nat): (r: Outcome<seq<Ring>>)
    requires start <= |data|
    ensures r.position <= |data| && (r.Good? ==> |r.value| == number)
  {
    if number == 0 then Good([], start)
    else
      match ParseRings(data, little, number - 1, start)
      case Bad(reason, position) => Bad(reason, position)
      case Good(rings, offset) =>
        match ParseRing(data, little, offset)
        case Bad(reason, position) => Bad(reason, position)
        case Good(ring, next) => Good(rings + [ring], next)
  }

  lemma {:induction false} RingFailureStays(data: seq<byte>, little: bool, k: nat, number: nat, start: nat)
    requires start <= |data| && k <= number && ParseRings(data, little, k, start).Bad?
    ensures ParseRings(data, little, number, start) == ParseRings(data, little, k, start)
  {
    if k < number {
      RingFailureStays(data, little, k, number - 1, start);
    }
  }

  /** The first ring is the outer one. */
  function PolygonOf(rings: seq<Ring>): Polygon {
    if rings == [] then Polygon([], []) else Polygon(rings[0], rings[1..])
  }

  function ParsePolygonBody(data: seq<byte>, little: bool): (r: Outcome<Polygon>)
    ensures r.position <= |data|
  {
    if |data| < COUNT then Bad(MissingRingCount, 0)
    else
      match ParseRings(data, little, CountAt(data, little, 0), COUNT)
      case Good(rings, position) => Good(PolygonOf(rings), position)
      case Bad(reason, position) => Bad(reason, position)
  }

  // ---- geometries ----

  function IsLittle(b: byte): bool {
    b == 1
  }

  /** The polygon of a multi-polygon at an offset and where the next one starts, or the failure to read it. */
  function ParseMember(data: seq<byte>, offset: nat): (r: Outcome<Polygon>)
    requires offset <= |data|
    ensures r.position <= |data|
  {
    if |data| - offset < HEADER then Bad(MissingPolygonHeader, offset)
    else
      var little := IsLittle(data[offset]);
      if CountAt(data, little, offset + 1) != POLYGON then Bad(UnexpectedType, offset + 1)
      else
        var start := offset + HEADER;
        match ParsePolygonBody(data[start..], little)
        case Good(polygon, position) => Good(polygon, start + position)
        case Bad(reason, position) => Bad(reason, start + position)
  }

  /** The first polygons of a multi-polygon and where the next one starts, or the failure to read them. */
  function ParsePolygons(data: seq<byte>, number: nat, start: nat): (r: Outcome<seq<Polygon>>)
    requires start <= |data|
    ensures r.position <= |data|
  {
    if number == 0 then Good([], start)
    else
      match ParsePolygons(data, number - 1, start)
      case Bad(reason, position) => Bad(reason, position)
      case Good(polygons, offset) =>
        match ParseMember(data, offset)
        case Bad(reason, position) => Bad(reason, position)
        case Good(polygon, next) => Good(polygons + [polygon], next)
  }

  lemma {:induction false} PolygonFailureStays(data: seq<byte>, k: nat, number: nat, start: nat)
    requires start <= |data| && k <= number && ParsePolygons(data, k, start).Bad?
    ensures ParsePolygons(data, number, start) == ParsePolygons(data, k, start)
  {
    if k < number {
      PolygonFailureStays(data, k, number - 1, start);
    }
  }

  function ParseWkb(data: seq<byte>): (r: Outcome<seq<Polygon>>)
    ensures r.position <= |data|
  {
    if |data| < HEADER then Bad(MissingHeader, 0)
    else
      var little := IsLittle(data[0]);
      var kind := CountAt(data, little, 1);
      if kind == POLYGON then
        match ParsePolygonBody(data[HEADER..], little)
        case Good(polygon, position) => Good([polygon], position + HEADER)
        case Bad(reason, position) => Bad(reason, position + HEADER)
      else if kind == MULTIPOLYGON then
        if |data| < HEADER + COUNT then Bad(MissingPolygonCount, HEADER)
        else ParsePolygons(data, CountAt(data, little, HEADER), HEADER + COUNT)
      else Bad(UnsupportedType, 1)
  }

  // ---- files ----

  // The entries passed to the callback, and how reading ended
  datatype Status = Done(position: nat) | Failed(reason: Reason, position: nat)
  datatype Reading = Reading(calls: seq<Entry>, status: Status)

  /** The entry with a payload that starts at some position, and where the next one starts. */
  function ParsePayload(code: nat, payload: seq<byte>, start: nat): (r: Outcome<Entry>)
    ensures start <= r.position <= start + |payload|
  {
    match ParseWkb(payload)
    case Bad(reason, position) => Bad(reason, start + position)
    case Good(polygons, _) => Good(Entry(code, polygons), start + |payload|)
  }

  /** The entry with a payload of some announced size. */
  function ParseSized(data: seq<byte>, code: nat, size: nat, start: nat): (r: Outcome<Entry>)
    requires start <= |data|
    ensures start <= r.position <= |data|
  {
    if |data| - start < size then Bad(PayloadTooLong, start)
    else ParsePayload(code, data[start..start + size], start)
  }

  /** The entry at an offset and where the next one starts, or the failure to read it. */
  function ParseEntry(data: seq<byte>, offset: nat): (r: Outcome<Entry>)
    requires offset < |data|
    ensures r.position <= |data| && (r.Good? ==> r.position > offset)
  {
    if |data| - offset < 6 then Bad(TruncatedEntry, offset)
    else
      var code := Decode(data[offset..offset + 2], true);
      var size := Decode(data[offset + 2..offset + 6], true);
      ParseSized(data, code, size, offset + 6)
  }

  function ReadEntries(data: seq<byte>, offset: nat, calls: seq<Entry>): (r: Reading)
    requires offset <= |data|
    ensures r.status.position <= |data| && (r.status.Done? ==> r.status.position == |data|)
    decreases |data| - offset
  {
    if offset == |data| then Reading(calls, Done(offset))
    else
      match ParseEntry(data, offset)
      case Bad(reason, position) => Reading(calls, Failed(reason, position))
      case Good(entry, next) => ReadEntries(data, next, calls + [entry])
  }

  /** Success ends exactly at the end of the data; a failure is located within the data. */
  function ReadCountryData(data: seq<byte>): (r: Reading)
    ensures r.status.position <= |data| && (r.status.Done? ==> r.status.position == |data|)
  {
    if |data| < 2 then Reading([], Failed(MissingVersion, 0))
    else if Decode(data[0..2], true) != VERSION then Reading([], Failed(UnsupportedVersion, 0))
    else ReadEntries(data, 2, [])
  }

  // ---- the database ----

  function Emplace(m: map<nat, seq<Polygon>>, e: Entry): map<nat, seq<Polygon>> {
    if e.code in m then m else m[e.code := e.polygons]
  }

  function EmplaceAll(es: seq<Entry>): map<nat, seq<Polygon>> {
    if es == [] then map[] else Emplace(EmplaceAll(es[..|es| - 1]), es[|es| - 1])
  }

  /** The first entry of a code is kept, later ones are ignored. */
  lemma {:induction false} FirstEntryIsKept(es: seq<Entry>, i: nat)
    requires i < |es| && forall j :: 0 <= j < i ==> es[j].code != es[i].code
    ensures es[i].code in EmplaceAll(es) && EmplaceAll(es)[es[i].code] == es[i].polygons
    decreases |es|
  {
    var before := es[..|es| - 1];
    if i < |es| - 1 {
      FirstEntryIsKept(before, i);
    } else {
      OnlyEntriesAreKept(before, es[i].code);
    }
  }

  lemma {:induction false} OnlyEntriesAreKept(es: seq<Entry>, code: nat)
    ensures code in EmplaceAll(es) <==> exists i :: 0 <= i < |es| && es[i].code == code
    decreases |es|
  {
    if es != [] {
      var before := es[..|es| - 1];
      OnlyEntriesAreKept(before, code);
      if exists i :: 0 <= i < |before| && before[i].code == code {
        var i :| 0 <= i < |before| && before[i].code == code;
        assert es[i].code == code;
      }
      if exists i :: 0 <= i < |es| && es[i].code == code {
        var i :| 0 <= i < |es| && es[i].code == code;
        if i < |before| {
          assert before[i].code == code;
        }
      }
    }
  }

  // ---- the reader as it runs ----

  lemma {:induction false} RingAtLast(data: seq<byte>, little: bool, offset: nat, n: nat)
    requires offset + 16 * (n + 1) <= |data|
    ensures RingAt(data, little, offset, n + 1)
         == RingAt(data, little, offset, n) + [PointAt(data, little, offset + 16 * n)]
  {
  }

  method ReadPoints(data: seq<byte>, little: bool, offset: nat, n: nat) returns (ring: Ring)
    requires offset + 16 * n <= |data|
    ensures ring == RingAt(data, little, offset, n)
  {
    ring := [];
    var o := offset;
    for i := 0 to n
      invariant o == offset + 16 * i && ring == RingAt(data, little, offset, i)
    {
      var longitude := Decode(data[o..o + 8], little);
      o := o + 8;
      var latitude := Decode(data[o..o + 8], little);
      o := o + 8;
      RingAtLast(data, little, offset, i);
      ring := ring + [Point(longitude, latitude)];
    }
  }

  method ReadRing(data: seq<byte>, little: bool, offset: nat) returns (r: Outcome<Ring>)
    requires offset <= |data|
    ensures r == ParseRing(data, little, offset)
  {
    if |data| - offset < COUNT {
      return Bad(MissingPointCount, offset);
    }
    var n := CountAt(data, little, offset);
    var start := offset + COUNT;
    if |data| - start < 16 * n {
      return Bad(MissingPointData, start);
    }
    var ring := ReadPoints(data, little, start, n);
    r := Good(ring, start + 16 * n);
  }

  /** The first ring becomes the outer one, the others are appended to the inner ones. */
  method ReadRings(data: seq<byte>, little: bool, number: nat, start: nat) returns (r: Outcome<Polygon>)
    requires start <= |data|
    ensures var rings := ParseRings(data, little, number, start);
      r == if rings.Good? then Good(PolygonOf(rings.value), rings.position) else Bad(rings.reason, rings.position)
  {
    var offset: nat := start;
    var polygon := Polygon([], []);
    ghost var done: seq<Ring> := [];
    for k := 0 to number
      invariant offset <= |data| && polygon == PolygonOf(done)
      invariant ParseRings(data, little, k, start) == Good(done, offset)
    {
      var ring := ReadRing(data, little, offset);
      if ring.Bad? {
        RingFailureStays(data, little, k + 1, number, start);
        return Bad(ring.reason, ring.position);
      }
      if k == 0 {
        polygon := polygon.(outer := ring.value);
      } else {
        polygon := polygon.(inners := polygon.inners + [ring.value]);
      }
      PolygonGrows(done, ring.value);
      done := done + [ring.value];
      offset := ring.position;
    }
    r := Good(polygon, offset);
  }

  lemma {:induction false} PolygonGrows(rings: seq<Ring>, ring: Ring)
    ensures var p := PolygonOf(rings);
      PolygonOf(rings + [ring]) == if rings == [] then Polygon(ring, []) else Polygon(p.outer, p.inners + [ring])
  {
    if rings != [] {
      assert (rings + [ring])[1..] == rings[1..] + [ring];
    }
  }

  method ReadPolygonBody(data: seq<byte>, little: bool) returns (r: Outcome<Polygon>)
    ensures r == ParsePolygonBody(data, little)
  {
    if |data| < COUNT {
      return Bad(MissingRingCount, 0);
    }
    r := ReadRings(data, little, CountAt(data, little, 0), COUNT);
  }

  method ReadWkb(data: seq<byte>) returns (r: Outcome<seq<Polygon>>)
    ensures r == ParseWkb(data)
  {
    if |data| < HEADER {
      return Bad(MissingHeader, 0);
    }
    var little := IsLittle(data[0]);
    var kind := CountAt(data, little, 1);
    if kind == POLYGON {
      var inner := ReadPolygonBody(data[HEADER..], little);
      if inner.Good? {
        return Good([inner.value], inner.position + HEADER);
      } else {
        return Bad(inner.reason, inner.position + HEADER);
      }
    } else if kind == MULTIPOLYGON {
      if |data| < HEADER + COUNT {
        return Bad(MissingPolygonCount, HEADER);
      }
      r := ReadPolygons(data, CountAt(data, little, HEADER), HEADER + COUNT);
    } else {
      return Bad(UnsupportedType, 1);
    }
  }

  method ReadMember(data: seq<byte>, offset: nat) returns (r: Outcome<Polygon>)
    requires offset <= |data|
    ensures r == ParseMember(data, offset)
  {
    if |data| - offset < HEADER {
      return Bad(MissingPolygonHeader, offset);
    }
    var little := IsLittle(data[offset]);
    if CountAt(data, little, offset + 1) != POLYGON {
      return Bad(UnexpectedType, offset + 1);
    }
    var start := offset + HEADER;
    var inner := ReadPolygonBody(data[start..], little);
    if inner.Bad? {
      return Bad(inner.reason, start + inner.position);
    }
    r := Good(inner.value, start + inner.position);
  }

  method ReadPolygons(data: seq<byte>, number: nat, start: nat) returns (r: Outcome<seq<Polygon>>)
    requires start <= |data|
    ensures r == ParsePolygons(data, number, start)
  {
    var offset: nat := start;
    var polygons: seq<Polygon> := [];
    for i := 0 to number
      invariant offset <= |data| && ParsePolygons(data, i, start) == Good(polygons, offset)
    {
      var inner := ReadMember(data, offset);
      if inner.Bad? {
        PolygonFailureStays(data, i + 1, number, start);
        return Bad(inner.reason, inner.position);
      }
      polygons := polygons + [inner.value];
      offset := inner.position;
    }
    r := Good(polygons, offset);
  }

  class CountryDatabase {
    var countries: map<nat, seq<Polygon>>

    constructor ()
      ensures countries == map[]
    {
      countries := map[];
    }

    /** All or nothing: the first entry of every code if the data is accepted, otherwise no entry. */
    method Load(data: seq<byte>) returns (status: Status)
      modifies this
      ensures status == ReadCountryData(data).status
      ensures countries == if status.Done? then EmplaceAll(ReadCountryData(data).calls) else map[]
    {
      countries := map[];
      status := Read(data);
      if status.Failed? {
        countries := map[];
      }
    }

    method Read(data: seq<byte>) returns (status: Status)
      requires countries == map[]
      modifies this
      ensures status == ReadCountryData(data).status
      ensures countries == EmplaceAll(ReadCountryData(data).calls)
    {
      if |data| < 2 {
        return Failed(MissingVersion, 0);
      }
      if Decode(data[0..2], true) != VERSION {
        return Failed(UnsupportedVersion, 0);
      }
      var offset: nat := 2;
      ghost var calls: seq<Entry> := [];
      ghost var target := ReadEntries(data, 2, []);
      while offset < |data|
        invariant offset <= |data| && countries == EmplaceAll(calls)
        invariant ReadEntries(data, offset, calls) == target
      {
        var e := ReadEntry(data, offset);
        if e.Bad? {
          return Failed(e.reason, e.position);
        }
        assert (calls + [e.value])[..|calls|] == calls;
        countries := Emplace(countries, e.value);
        calls := calls + [e.value];
        offset := e.position;
      }
      status := Done(offset);
    }
  }

  method ReadEntry(data: seq<byte>, offset: nat) returns (r: Outcome<Entry>)
    requires offset < |data|
    ensures r == ParseEntry(data, offset)
  {
    if |data| - offset < 6 {
      return Bad(TruncatedEntry, offset);
    }
    var code := Decode(data[offset..offset + 2], true);
    var size := Decode(data[offset + 2..offset + 6], true);
    var start := offset + 6;
    if |data| - start < size {
      return Bad(PayloadTooLong, start);
    }
    var inner := ReadWkb(data[start..start + size]);
    if inner.Bad? {
      return Bad(inner.reason, start + inner.position);
    }
    r := Good(Entry(code, inner.value), start + size);
  }
}
