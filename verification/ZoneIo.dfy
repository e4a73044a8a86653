/**
 Segment I/O through zones: reads and writes at a segment's own offsets, cut into one piece per zone, behave
 as on a flat sparse byte array of its own.
 */
module ZoneIo {
  import opened Arithmetic
  import opened Basics
  import opened DeviceModel

  const BLOCK: nat := 4096

  datatype IoError = StorageFull | UnexpectedEof | NotFound

  datatype Geometry = Geometry(zonesOffset: nat, zoneSize: nat, zoneCount: nat)

  predicate GeoOk(g: Geometry) {
    g.zoneSize > BLOCK
  }

  function Payload(g: Geometry): nat
    requires GeoOk(g)
  {
    g.zoneSize - BLOCK
  }

  function ZoneOffset(g: Geometry, z: nat): nat {
    g.zonesOffset + z * g.zoneSize
  }

  function ZonesEnd(g: Geometry): nat {
    ZoneOffset(g, g.zoneCount)
  }

  /** Where byte `i` of a segment lives on the device. */
  function Place(g: Geometry, zones: seq<nat>, i: nat): nat
    requires GeoOk(g) && i / Payload(g) < |zones|
  {
    ZoneOffset(g, zones[i / Payload(g)]) + BLOCK + i % Payload(g)
  }

  // ---------------------------------------------------------------------------------------------
  // Arithmetic of places.
  // ---------------------------------------------------------------------------------------------

  lemma Within(i: nat, n: nat, p: nat)
    requires p > 0
    ensures i < n * p <==> i / p < n
  {
    Split(i, p);
    if i / p < n {
      MulMono(i / p + 1, n, p);
    } else {
      MulMono(n, i / p, p);
    }
  }

  /** Neighbours in one zone are neighbours on the device. */
  lemma Neighbours(i: nat, t: nat, p: nat)
    requires p > 0 && i % p + t < p
    ensures (i + t) / p == i / p && (i + t) % p == i % p + t
  {
    Split(i, p);
    SplitUnique(i / p, i % p + t, p);
  }

  lemma ZoneApart(g: Geometry, y: nat, z: nat)
    requires y < z
    ensures ZoneOffset(g, y) + g.zoneSize <= ZoneOffset(g, z)
  {
    MulMono(y + 1, z, g.zoneSize);
  }

  /** A segment's byte is in the payload of its own zone: past the fixed regions and past every header. */
  lemma PlaceInside(g: Geometry, zones: seq<nat>, i: nat)
    requires GeoOk(g) && i / Payload(g) < |zones|
    ensures var z := zones[i / Payload(g)];
            ZoneOffset(g, z) + BLOCK <= Place(g, zones, i) < ZoneOffset(g, z) + g.zoneSize
    ensures zones[i / Payload(g)] < g.zoneCount ==> Place(g, zones, i) < ZonesEnd(g)
  {
    if zones[i / Payload(g)] < g.zoneCount {
      ZoneApart(g, zones[i / Payload(g)], g.zoneCount);
    }
  }

  /** An address in a zone's span is in no other zone's. */
  lemma SameZone(g: Geometry, y: nat, z: nat, a: nat)
    requires ZoneOffset(g, y) <= a < ZoneOffset(g, y) + g.zoneSize
    requires ZoneOffset(g, z) <= a < ZoneOffset(g, z) + g.zoneSize
    ensures y == z
  {
    if y < z {
      ZoneApart(g, y, z);
    } else if z < y {
      ZoneApart(g, z, y);
    }
  }

  predicate Distinct(zones: seq<nat>) {
    forall i, j :: 0 <= i < j < |zones| ==> zones[i] != zones[j]
  }

  predicate Disjoint(a: seq<nat>, b: seq<nat>) {
    forall i, j :: 0 <= i < |a| && 0 <= j < |b| ==> a[i] != b[j]
  }

  /** Distinct offsets of a segment are distinct bytes of the device. */
  lemma PlaceInjective(g: Geometry, zones: seq<nat>, i: nat, j: nat)
    requires GeoOk(g) && i / Payload(g) < |zones| && j / Payload(g) < |zones| && Distinct(zones)
    requires Place(g, zones, i) == Place(g, zones, j)
    ensures i == j
  {
    var p := Payload(g);
    PlaceInside(g, zones, i);
    PlaceInside(g, zones, j);
    SameZone(g, zones[i / p], zones[j / p], Place(g, zones, i));
    SameIndex(zones, i / p, j / p);
    hide Distinct;
    assert i % p == j % p;
    Split(i, p);
    Split(j, p);
  }

  lemma SameIndex(zones: seq<nat>, i: nat, j: nat)
    requires Distinct(zones) && i < |zones| && j < |zones| && zones[i] == zones[j]
    ensures i == j
  {
  }

  /** Segments with no zone in common have no byte in common. */
  lemma PlaceApart(g: Geometry, a: seq<nat>, b: seq<nat>, i: nat, j: nat)
    requires GeoOk(g) && i / Payload(g) < |a| && j / Payload(g) < |b| && Disjoint(a, b)
    ensures Place(g, a, i) != Place(g, b, j)
  {
    PlaceInside(g, a, i);
    PlaceInside(g, b, j);
    if Place(g, a, i) == Place(g, b, j) {
      SameZone(g, a[i / Payload(g)], b[j / Payload(g)], Place(g, a, i));
    }
  }

  /** Byte `i` of the segment is byte `a` of the device. */
  ghost predicate At(g: Geometry, zones: seq<nat>, i: nat, a: nat) {
    GeoOk(g) && i / Payload(g) < |zones| && Place(g, zones, i) == a
  }

  ghost predicate Touched(g: Geometry, zones: seq<nat>, lo: nat, hi: nat, a: nat) {
    exists i: nat :: lo <= i < hi && At(g, zones, i, a)
  }

  lemma AtInjective(g: Geometry, zones: seq<nat>, i: nat, j: nat, a: nat)
    requires Distinct(zones) && At(g, zones, i, a) && At(g, zones, j, a)
    ensures i == j
  {
    PlaceInjective(g, zones, i, j);
  }

  lemma AtApart(g: Geometry, x: seq<nat>, y: seq<nat>, i: nat, j: nat, a: nat)
    requires Disjoint(x, y) && At(g, x, i, a)
    ensures !At(g, y, j, a)
  {
    if At(g, y, j, a) {
      PlaceApart(g, x, y, i, j);
    }
  }

  // ---------------------------------------------------------------------------------------------
  // A segment's bytes.
  // ---------------------------------------------------------------------------------------------

  ghost predicate Fits(g: Geometry, size: nat, zones: seq<nat>) {
    GeoOk(g) && ZonesEnd(g) <= size && Distinct(zones) && forall i :: 0 <= i < |zones| ==> zones[i] < g.zoneCount
  }

  /** A segment as one flat array: `c`, and zero from there to the end of its zones. */
  ghost predicate Holds(g: Geometry, mem: seq<Byte>, zones: seq<nat>, c: seq<Byte>) {
    && Fits(g, |mem|, zones) && |c| <= |zones| * Payload(g)
    && (forall i: nat, a: nat :: At(g, zones, i, a) && a < |mem| ==> mem[a] == if i < |c| then c[i] else 0)
  }

  /** A sparse write: what it skips over reads as zero. */
  function Overlay(c: seq<Byte>, off: nat, data: seq<Byte>): seq<Byte> {
    seq(Max(|c|, off + |data|), i requires 0 <= i < Max(|c|, off + |data|) =>
      if off <= i < off + |data| then data[i - off] else if i < |c| then c[i] else 0)
  }

  /**
   `after` is `before` with the first `n` bytes of `data` put at the segment's offset `off`, and nothing else touched.
   */
  ghost predicate Wrote(g: Geometry, zones: seq<nat>, off: nat, data: seq<Byte>, n: nat, before: seq<Byte>,
                        after: seq<Byte>) {
    && |after| == |before| && n <= |data|
    && (forall i: nat, a: nat :: off <= i < off + n && At(g, zones, i, a) && a < |after| ==> after[a] == data[i - off])
    && (forall a: nat :: a < |before| && !Touched(g, zones, off, off + n, a) ==> after[a] == before[a])
  }

  lemma WroteHolds(g: Geometry, zones: seq<nat>, off: nat, data: seq<Byte>, before: seq<Byte>, after: seq<Byte>,
                   c: seq<Byte>)
    requires Wrote(g, zones, off, data, |data|, before, after) && Holds(g, before, zones, c)
    requires off + |data| <= |zones| * Payload(g)
    ensures Holds(g, after, zones, Overlay(c, off, data))
  {
    hide At, Distinct;
    var d := Overlay(c, off, data);
    forall i: nat, a: nat | At(g, zones, i, a) && a < |after|
      ensures after[a] == if i < |d| then d[i] else 0
    {
      if Touched(g, zones, off, off + |data|, a) {
        var j: nat :| off <= j < off + |data| && At(g, zones, j, a);
        AtInjective(g, zones, i, j, a);
      }
    }
  }

  lemma WroteElsewhere(g: Geometry, zones: seq<nat>, off: nat, data: seq<Byte>, before: seq<Byte>, after: seq<Byte>,
                       b: seq<nat>, c: seq<Byte>)
    requires Wrote(g, zones, off, data, |data|, before, after) && Holds(g, before, b, c) && Disjoint(b, zones)
    ensures Holds(g, after, b, c)
  {
    hide At, Distinct, Disjoint;
    forall i: nat, a: nat | At(g, b, i, a) && a < |after|
      ensures after[a] == before[a]
    {
      forall j: nat
        ensures !At(g, zones, j, a)
      {
        AtApart(g, b, zones, i, j, a);
      }
    }
  }

  /** Bytes next to each other in one zone of a segment are next to each other on the device. */
  lemma PieceAt(g: Geometry, zones: seq<nat>, i: nat, a: nat, t: nat)
    requires At(g, zones, i, a) && i % Payload(g) + t < Payload(g)
    ensures At(g, zones, i + t, a + t)
  {
    Neighbours(i, t, Payload(g));
  }

  ghost predicate Spliced(before: seq<Byte>, at: nat, data: seq<Byte>, after: seq<Byte>) {
    at + |data| <= |before| && after == before[..at] + data + before[at + |data|..]
  }

  ghost predicate Piece(g: Geometry, zones: seq<nat>, i: nat, m: nat, at: nat) {
    Distinct(zones) && At(g, zones, i, at) && i % Payload(g) + m <= Payload(g)
  }

  /** In a piece, and only there, addresses follow offsets. */
  lemma PieceIs(g: Geometry, zones: seq<nat>, i: nat, m: nat, at: nat, j: nat, a: nat)
    requires Piece(g, zones, i, m, at) && At(g, zones, j, a)
    ensures at <= a < at + m <==> i <= j < i + m
    ensures at <= a < at + m ==> j - i == a - at
  {
    if at <= a < at + m {
      PieceAt(g, zones, i, at, a - at);
      AtInjective(g, zones, j, i + (a - at), a);
    }
    if i <= j < i + m {
      PieceAt(g, zones, i, at, j - i);
      assert i + (j - i) == j;
    }
  }

  lemma PieceTouches(g: Geometry, zones: seq<nat>, i: nat, m: nat, at: nat, a: nat)
    requires Piece(g, zones, i, m, at) && at <= a < at + m
    ensures Touched(g, zones, i, i + m, a)
  {
    PieceAt(g, zones, i, at, a - at);
  }

  lemma TouchedMore(g: Geometry, zones: seq<nat>, lo: nat, mid: nat, hi: nat, a: nat)
    requires lo <= mid <= hi
    ensures Touched(g, zones, lo, mid, a) ==> Touched(g, zones, lo, hi, a)
    ensures Touched(g, zones, mid, hi, a) ==> Touched(g, zones, lo, hi, a)
  {
    hide At;
  }

  /** One piece of a write, all in one zone. */
  lemma OnePiece(g: Geometry, zones: seq<nat>, off: nat, data: seq<Byte>, n: nat, m: nat, at: nat, before: seq<Byte>,
                 mid: seq<Byte>, after: seq<Byte>)
    requires Wrote(g, zones, off, data, n, before, mid) && n + m <= |data|
    requires Piece(g, zones, off + n, m, at) && Spliced(mid, at, data[n..n + m], after)
    ensures Wrote(g, zones, off, data, n + m, before, after)
  {
    hide At, Piece, Touched;
    forall i: nat, a: nat | off <= i < off + (n + m) && At(g, zones, i, a) && a < |after|
      ensures after[a] == data[i - off]
    {
      PieceIs(g, zones, off + n, m, at, i, a);
    }
    forall a: nat | a < |before| && !Touched(g, zones, off, off + (n + m), a)
      ensures after[a] == before[a]
    {
      TouchedMore(g, zones, off, off + n, off + n + m, a);
      if at <= a < at + m {
        PieceTouches(g, zones, off + n, m, at, a);
      }
    }
  }

  // ---------------------------------------------------------------------------------------------
  // Adding a zone.
  // ---------------------------------------------------------------------------------------------

  lemma GrownAt(g: Geometry, zones: seq<nat>, z: nat, i: nat, a: nat)
    requires At(g, zones + [z], i, a)
    ensures At(g, zones, i, a) || (i >= |zones| * Payload(g) && At(g, [z], i - |zones| * Payload(g), a))
  {
    var p, n := Payload(g), |zones|;
    Split(i, p);
    if i / p >= n {
      SplitUnique(0, i % p, p);
      assert i - n * p == i % p;
    }
  }

  /** A zone of zeroes at the end of a segment changes none of its bytes. */
  lemma GrownHolds(g: Geometry, mem: seq<Byte>, zones: seq<nat>, z: nat, c: seq<Byte>)
    requires Holds(g, mem, zones, c) && Holds(g, mem, [z], []) && z !in zones
    ensures Holds(g, mem, zones + [z], c)
  {
    MulMono(|zones|, |zones| + 1, Payload(g));
    assert z < g.zoneCount by {
      assert [z][0] == z;
    }
    hide At;
    forall i: nat, a: nat | At(g, zones + [z], i, a) && a < |mem|
      ensures mem[a] == if i < |c| then c[i] else 0
    {
      GrownAt(g, zones, z, i, a);
    }
  }

  function Zeroes(n: nat): seq<Byte> {
    seq(n, _ => 0)
  }

  lemma WholeZone(g: Geometry, z: nat)
    requires GeoOk(g)
    ensures Piece(g, [z], 0, Payload(g), ZoneOffset(g, z) + BLOCK)
  {
  }

  lemma NoneWrote(g: Geometry, zones: seq<nat>, off: nat, data: seq<Byte>, mem: seq<Byte>)
    ensures Wrote(g, zones, off, data, 0, mem, mem)
  {
  }

  lemma ZeroedHolds(g: Geometry, z: nat, before: seq<Byte>, after: seq<Byte>)
    requires GeoOk(g) && z < g.zoneCount && ZonesEnd(g) <= |before|
    requires Wrote(g, [z], 0, Zeroes(Payload(g)), Payload(g), before, after)
    ensures Holds(g, after, [z], [])
  {
    forall i: nat, a: nat | At(g, [z], i, a) && a < |after|
      ensures after[a] == 0
    {
      Split(i, Payload(g));
    }
  }

  // ---------------------------------------------------------------------------------------------
  // The device.
  // ---------------------------------------------------------------------------------------------

  datatype ZoneMap = Clean | Unknown | Owned | Freeing

  /** What the zone map and the segment table promise about the device's bytes. */
  ghost predicate Sane(g: Geometry, mem: seq<Byte>, zmap: seq<ZoneMap>, zones: map<Key, seq<nat>>,
                       contents: map<Key, seq<Byte>>)
  {
    && GeoOk(g) && ZonesEnd(g) <= |mem| && |zmap| == g.zoneCount && zones.Keys == contents.Keys
    && (forall k :: k in zones ==> Holds(g, mem, zones[k], contents[k]))
    && (forall k, i :: k in zones && 0 <= i < |zones[k]| && zones[k][i] < |zmap| ==> zmap[zones[k][i]] == Owned)
    && (forall k, l :: k in zones && l in zones && k != l ==> Disjoint(zones[k], zones[l]))
    && (forall z: nat :: z < |zmap| && zmap[z] == Clean ==> Holds(g, mem, [z], []))
  }

  /** Taking a zone nobody has. */
  lemma SaneTaken(g: Geometry, mem: seq<Byte>, zmap: seq<ZoneMap>, zones: map<Key, seq<nat>>,
                  contents: map<Key, seq<Byte>>, z: nat)
    requires Sane(g, mem, zmap, zones, contents) && z < |zmap| && (zmap[z] == Clean || zmap[z] == Unknown)
    ensures Sane(g, mem, zmap[z := Owned], zones, contents) && (forall k :: k in zones ==> z !in zones[k])
    ensures (zmap[z] == Clean ==> Holds(g, mem, [z], [])) && GeoOk(g) && z < g.zoneCount && ZonesEnd(g) <= |mem|
  {
    hide Holds, Disjoint;
  }

  /** Bytes moved only in zones nobody else counts on. */
  lemma SaneElsewhere(g: Geometry, zs: seq<nat>, off: nat, data: seq<Byte>, before: seq<Byte>, after: seq<Byte>,
                      zmap: seq<ZoneMap>, zones: map<Key, seq<nat>>, contents: map<Key, seq<Byte>>)
    requires Sane(g, before, zmap, zones, contents) && Wrote(g, zs, off, data, |data|, before, after)
    requires forall k :: k in zones ==> Disjoint(zones[k], zs)
    requires forall z: nat :: z < |zmap| && zmap[z] == Clean ==> Disjoint([z], zs)
    ensures Sane(g, after, zmap, zones, contents)
  {
    hide Wrote, Holds, Disjoint;
    assert |after| == |before| by {
      WroteLength(g, zs, off, data, before, after);
    }
    forall k | k in zones
      ensures Holds(g, after, zones[k], contents[k])
    {
      WroteElsewhere(g, zs, off, data, before, after, zones[k], contents[k]);
    }
    forall z: nat | z < |zmap| && zmap[z] == Clean
      ensures Holds(g, after, [z], [])
    {
      WroteElsewhere(g, zs, off, data, before, after, [z], []);
    }
  }

  lemma WroteLength(g: Geometry, zs: seq<nat>, off: nat, data: seq<Byte>, before: seq<Byte>, after: seq<Byte>)
    requires Wrote(g, zs, off, data, |data|, before, after)
    ensures |after| == |before|
  {
  }

  ghost predicate Inside(g: Geometry, zones: seq<nat>, a: nat) {
    exists i: nat :: At(g, zones, i, a)
  }

  /** Nothing changed but payload bytes of `zones`. */
  ghost predicate OnlyInside(g: Geometry, zones: seq<nat>, before: seq<Byte>, after: seq<Byte>) {
    |after| == |before| && forall a: nat :: a < |before| && !Inside(g, zones, a) ==> after[a] == before[a]
  }

  /** The fixed regions before the zones, and every zone's header block, are in no segment's payload. */
  lemma HeadersApart(g: Geometry, zones: seq<nat>, z: nat, a: nat)
    requires GeoOk(g)
    requires a < g.zonesOffset || ZoneOffset(g, z) <= a < ZoneOffset(g, z) + BLOCK
    ensures !Inside(g, zones, a)
  {
    forall i: nat
      ensures !At(g, zones, i, a)
    {
      if At(g, zones, i, a) {
        PlaceInside(g, zones, i);
        if a >= g.zonesOffset {
          SameZone(g, z, zones[i / Payload(g)], a);
        }
      }
    }
  }

  lemma WroteInside(g: Geometry, zones: seq<nat>, off: nat, data: seq<Byte>, before: seq<Byte>, after: seq<Byte>)
    requires Wrote(g, zones, off, data, |data|, before, after)
    ensures OnlyInside(g, zones, before, after)
  {
    hide At;
  }

  lemma GrownInside(g: Geometry, zones: seq<nat>, more: seq<nat>, a: nat)
    requires zones <= more && Inside(g, zones, a)
    ensures Inside(g, more, a)
  {
    var i: nat :| At(g, zones, i, a);
    assert At(g, more, i, a);
  }

  lemma LastInside(g: Geometry, zones: seq<nat>, z: nat, a: nat)
    requires Inside(g, [z], a)
    ensures Inside(g, zones + [z], a)
  {
    var i: nat :| At(g, [z], i, a);
    LastAt(g, zones, z, i, a);
  }

  lemma LastAt(g: Geometry, zones: seq<nat>, z: nat, i: nat, a: nat)
    requires At(g, [z], i, a)
    ensures At(g, zones + [z], |zones| * Payload(g) + i, a)
  {
    var p := Payload(g);
    Split(i, p);
    SplitUnique(|zones|, i, p);
    var j := |zones| * p + i;
    assert j / p == |zones| && j % p == i;
    assert (zones + [z])[j / p] == z == [z][i / p];
  }

  lemma InsideTwice(g: Geometry, zones: seq<nat>, a: seq<Byte>, b: seq<Byte>, c: seq<Byte>)
    requires OnlyInside(g, zones, a, b) && OnlyInside(g, zones, b, c)
    ensures OnlyInside(g, zones, a, c)
  {
    hide Inside;
  }

  lemma NothingMoved(g: Geometry, zones: seq<nat>, mem: seq<Byte>)
    ensures OnlyInside(g, zones, mem, mem)
  {
  }

  lemma InsideChain(g: Geometry, zones: seq<nat>, more: seq<nat>, z: nat, a: seq<Byte>, b: seq<Byte>, c: seq<Byte>)
    requires OnlyInside(g, zones, a, b) && OnlyInside(g, [z], b, c) && more == zones + [z]
    ensures OnlyInside(g, more, a, c)
  {
    forall x: nat | x < |a| && !Inside(g, more, x)
      ensures a[x] == c[x]
    {
      if Inside(g, zones, x) {
        GrownInside(g, zones, more, x);
      }
      if Inside(g, [z], x) {
        LastInside(g, zones, z, x);
      }
    }
  }

  /** A claimed zone of zeroes joins a segment. */
  lemma SaneGrown(g: Geometry, mem: seq<Byte>, zmap: seq<ZoneMap>, zones: map<Key, seq<nat>>,
                  contents: map<Key, seq<Byte>>, k: Key, z: nat)
    requires Sane(g, mem, zmap, zones, contents) && k in zones && z < |zmap| && zmap[z] == Owned
    requires Holds(g, mem, [z], []) && forall l :: l in zones ==> z !in zones[l]
    ensures Sane(g, mem, zmap, zones[k := zones[k] + [z]], contents)
  {
    hide Holds;
    GrownHolds(g, mem, zones[k], z, contents[k]);
  }

  /** A claimed zone of zeroes is a new, empty segment. */
  lemma SaneCreated(g: Geometry, mem: seq<Byte>, zmap: seq<ZoneMap>, zones: map<Key, seq<nat>>,
                    contents: map<Key, seq<Byte>>, k: Key, z: nat)
    requires Sane(g, mem, zmap, zones, contents) && k !in zones && z < |zmap| && zmap[z] == Owned
    requires Holds(g, mem, [z], []) && forall l :: l in zones ==> z !in zones[l]
    ensures Sane(g, mem, zmap, zones[k := [z]], contents[k := []])
  {
    hide Holds;
  }

  function FreeingAll(zmap: seq<ZoneMap>, zs: seq<nat>): seq<ZoneMap> {
    seq(|zmap|, z requires 0 <= z < |zmap| => if z in zs then Freeing else zmap[z])
  }

  lemma SaneRemoved(g: Geometry, mem: seq<Byte>, zmap: seq<ZoneMap>, zones: map<Key, seq<nat>>,
                    contents: map<Key, seq<Byte>>, k: Key)
    requires Sane(g, mem, zmap, zones, contents) && k in zones
    ensures Sane(g, mem, FreeingAll(zmap, zones[k]), zones - {k}, contents - {k})
  {
    hide Holds;
  }

  /** A write to one segment: that segment as overlaid, all others as they were. */
  lemma SaneWritten(g: Geometry, before: seq<Byte>, after: seq<Byte>, zmap: seq<ZoneMap>, zones: map<Key, seq<nat>>,
                    contents: map<Key, seq<Byte>>, k: Key, off: nat, data: seq<Byte>)
    requires Sane(g, before, zmap, zones, contents) && k in zones && off + |data| <= |zones[k]| * Payload(g)
    requires Wrote(g, zones[k], off, data, |data|, before, after)
    ensures Sane(g, after, zmap, zones, contents[k := Overlay(contents[k], off, data)])
  {
    hide Wrote, Disjoint;
    WroteLength(g, zones[k], off, data, before, after);
    assert forall i :: 0 <= i < |zones[k]| ==> zones[k][i] < |zmap|;
    hide Holds;
    WroteHolds(g, zones[k], off, data, before, after, contents[k]);
    forall l | l in zones && l != k
      ensures Holds(g, after, zones[l], contents[l])
    {
      WroteElsewhere(g, zones[k], off, data, before, after, zones[l], contents[l]);
    }
    forall z: nat | z < |zmap| && zmap[z] == Clean
      ensures Holds(g, after, [z], [])
    {
      Alone(zmap, zones[k], z);
      WroteElsewhere(g, zones[k], off, data, before, after, [z], []);
    }
  }

  lemma Alone(zmap: seq<ZoneMap>, zs: seq<nat>, z: nat)
    requires z < |zmap| && zmap[z] == Clean && forall i :: 0 <= i < |zs| ==> zs[i] < |zmap| && zmap[zs[i]] == Owned
    ensures Disjoint([z], zs)
  {
  }

  function CeilDiv(a: nat, p: nat): nat
    requires p > 0
  {
    (a + p - 1) / p
  }

  /** Enough zones for a write that ends at `end`. */
  lemma NeededCovers(end: nat, n: nat, p: nat)
    requires p > 0 && CeilDiv(end, p) <= n
    ensures end <= n * p
  {
    Split(end + p - 1, p);
    MulMono((end + p - 1) / p, n, p);
  }

  /** How much of `[at, end)` is in the zone `at` falls in. */
  function PieceLen(g: Geometry, at: nat, end: nat): nat
    requires GeoOk(g) && at < end
  {
    Min(Payload(g) - at % Payload(g), end - at)
  }

  /** The next piece of a range inside a segment's zones. */
  lemma NextPiece(g: Geometry, size: nat, zs: seq<nat>, at: nat, end: nat)
    requires Fits(g, size, zs) && at < end <= |zs| * Payload(g)
    ensures at / Payload(g) < |zs| && 0 < PieceLen(g, at, end) <= end - at
    ensures Piece(g, zs, at, PieceLen(g, at, end), Place(g, zs, at)) && Place(g, zs, at) + PieceLen(g, at, end) <= size
  {
    var p := Payload(g);
    Within(at, |zs|, p);
    Split(at, p);
    var z := zs[at / p];
    ZoneApart(g, z, g.zoneCount);
  }

  /** What a piece holds is that stretch of the segment. */
  lemma PieceReads(g: Geometry, mem: seq<Byte>, zs: seq<nat>, c: seq<Byte>, at: nat, n: nat, a: nat)
    requires Holds(g, mem, zs, c) && Piece(g, zs, at, n, a) && a + n <= |mem| && at + n <= |c|
    ensures mem[a..a + n] == c[at..at + n]
  {
    var x, y := mem[a..a + n], c[at..at + n];
    forall t | 0 <= t < n
      ensures x[t] == y[t]
    {
      PieceByte(g, mem, zs, c, at, n, a, t);
    }
  }

  lemma PieceByte(g: Geometry, mem: seq<Byte>, zs: seq<nat>, c: seq<Byte>, at: nat, n: nat, a: nat, t: nat)
    requires Holds(g, mem, zs, c) && Piece(g, zs, at, n, a) && a + n <= |mem| && at + n <= |c| && t < n
    ensures mem[a + t] == c[at + t]
  {
    PieceAt(g, zs, at, a, t);
    hide At;
  }

  lemma NoneNeeded(p: nat)
    requires p > 0
    ensures CeilDiv(0, p) == 0
  {
    SplitUnique(0, p - 1, p);
  }

  class ZonedDevice {
    const geo: Geometry
    const bytes: array<Byte>
    var zmap: seq<ZoneMap>
    var zones: map<Key, seq<nat>>
    var lens: map<Key, nat>
    /** Each segment as the flat array it stands for. */
    ghost var contents: map<Key, seq<Byte>>

    ghost predicate Valid()
      reads this, bytes
    {
      && Sane(geo, bytes[..], zmap, zones, contents) && lens.Keys == zones.Keys
      && (forall k :: k in zones ==> |contents[k]| == lens[k])
    }

    /** The device file's own positional write. */
    method PutRange(at: nat, data: seq<Byte>)
      requires at + |data| <= bytes.Length
      modifies bytes
      ensures Spliced(old(bytes[..]), at, data, bytes[..])
    {
      forall t | 0 <= t < |data| {
        bytes[at + t] := data[t];
      }
    }

    /** The first zone of the wanted kind. */
    method Find(want: ZoneMap) returns (z: nat)
      ensures z <= |zmap| && (z < |zmap| ==> zmap[z] == want)
      ensures forall y :: 0 <= y < z ==> zmap[y] != want
    {
      z := 0;
      while z < |zmap| && zmap[z] != want
        invariant z <= |zmap| && forall y :: 0 <= y < z ==> zmap[y] != want
        decreases |zmap| - z
      {
        z := z + 1;
      }
    }

    /** Claims a clean zone, or failing that one of unknown contents, zeroed first. */
    method ClaimZone() returns (r: Result<nat, IoError>)
      requires Valid()
      modifies this`zmap, bytes
      ensures Valid()
      ensures match r
              case Ok(z) =>
                && z < |zmap| == |old(zmap)| && zmap == old(zmap)[z := Owned] && zmap[z] == Owned
                && (old(zmap)[z] == Clean || (old(zmap)[z] == Unknown && Clean !in old(zmap)))
                && Holds(geo, bytes[..], [z], []) && (forall k :: k in zones ==> z !in zones[k])
                && OnlyInside(geo, [z], old(bytes[..]), bytes[..])
              case Err(StorageFull) => Clean !in zmap && Unknown !in zmap && zmap == old(zmap)
                && bytes[..] == old(bytes[..])
              case _ => false
    {
      hide Sane, Holds, OnlyInside;
      var z := Find(Clean);
      if z < |zmap| {
        SaneTaken(geo, bytes[..], zmap, zones, contents, z);
        NothingMoved(geo, [z], bytes[..]);
        zmap := zmap[z := Owned];
        return Ok(z);
      }
      z := Find(Unknown);
      if z == |zmap| {
        return Err(StorageFull);
      }
      ghost var was := bytes[..];
      SaneTaken(geo, was, zmap, zones, contents, z);
      zmap := zmap[z := Owned];
      ZoneApart(geo, z, geo.zoneCount);
      PutRange(ZoneOffset(geo, z) + BLOCK, Zeroes(Payload(geo)));
      ZeroZone(was, z);
      return Ok(z);
    }

    /** Zeroing a zone outside every segment and not clean. */
    lemma ZeroZone(was: seq<Byte>, z: nat)
      requires z < |zmap| && Sane(geo, was, zmap, zones, contents) && zmap[z] == Owned
      requires forall k :: k in zones ==> z !in zones[k]
      requires Spliced(was, ZoneOffset(geo, z) + BLOCK, Zeroes(Payload(geo)), bytes[..])
      ensures Sane(geo, bytes[..], zmap, zones, contents)
      ensures Holds(geo, bytes[..], [z], []) && OnlyInside(geo, [z], was, bytes[..])
    {
      var data := Zeroes(Payload(geo));
      hide Holds;
      NoneWrote(geo, [z], 0, data, was);
      WholeZone(geo, z);
      assert data[0..0 + |data|] == data;
      hide Piece, Wrote, Spliced, OnlyInside;
      OnePiece(geo, [z], 0, data, 0, |data|, ZoneOffset(geo, z) + BLOCK, was, was, bytes[..]);
      ZeroedHolds(geo, z, was, bytes[..]);
      WroteInside(geo, [z], 0, data, was, bytes[..]);
      SaneElsewhere(geo, [z], 0, data, was, bytes[..], zmap, zones, contents);
    }

    /** Claims zones up to `needed`. What it claimed before running out stays claimed. */
    method GrowTo(k: Key, needed: nat) returns (ok: bool)
      requires Valid() && k in zones
      modifies this`zmap, this`zones, bytes
      ensures Valid() && contents == old(contents) && lens == old(lens)
      ensures zones.Keys == old(zones).Keys && zones == old(zones)[k := zones[k]]
      ensures old(zones)[k] <= zones[k]
      ensures if ok then |zones[k]| == Max(|old(zones)[k]|, needed)
              else |zones[k]| < needed && Clean !in zmap && Unknown !in zmap
      ensures OnlyInside(geo, zones[k], old(bytes[..]), bytes[..])
    {
      hide Sane, OnlyInside;
      NothingMoved(geo, zones[k], bytes[..]);
      while |zones[k]| < needed
        invariant Valid() && contents == old(contents) && lens == old(lens) && k in zones
        invariant zones.Keys == old(zones).Keys && zones == old(zones)[k := zones[k]]
        invariant old(zones)[k] <= zones[k] && |zones[k]| <= Max(|old(zones)[k]|, needed)
        invariant OnlyInside(geo, zones[k], old(bytes[..]), bytes[..])
        decreases needed - |zones[k]|
      {
        ghost var mid := bytes[..];
        var r := ClaimZone();
        if r.Err? {
          return false;
        }
        var z := r.value;
        InsideChain(geo, zones[k], zones[k] + [z], z, old(bytes[..]), mid, bytes[..]);
        SaneGrown(geo, bytes[..], zmap, zones, contents, k, z);
        zones := zones[k := zones[k] + [z]];
      }
      ok := true;
    }

    /** A device none of whose zones are known. */
    constructor (geo: Geometry, raw: array<Byte>)
      requires GeoOk(geo) && ZonesEnd(geo) <= raw.Length
      ensures Valid() && bytes == raw && this.geo == geo && zones == map[]
    {
      this.geo, bytes := geo, raw;
      zmap := seq(geo.zoneCount, _ => Unknown);
      zones, lens, contents := map[], map[], map[];
    }

    /** Takes a segment out of the table; its zones wait to be freed. */
    method Remove(k: Key) returns (r: Result<(), IoError>)
      requires Valid()
      modifies this
      ensures Valid()
      ensures if k !in old(zones) then r == Err(NotFound) && zones == old(zones) && zmap == old(zmap)
              && contents == old(contents)
              else r == Ok(()) && zones == old(zones) - {k} && contents == old(contents) - {k}
                   && zmap == FreeingAll(old(zmap), old(zones)[k])
    {
      if k !in zones {
        return Err(NotFound);
      }
      hide Sane;
      SaneRemoved(geo, bytes[..], zmap, zones, contents, k);
      zmap := FreeingAll(zmap, zones[k]);
      zones, lens, contents := zones - {k}, lens - {k}, contents - {k};
      return Ok(());
    }

    /**
     Creates a segment, empty, in place of any of that name; the old one is gone even if no zone is left for the new.
     */
    method Create(k: Key) returns (r: Result<(), IoError>)
      requires Valid()
      modifies this, bytes
      ensures Valid()
      ensures match r
              case Ok(_) => contents == old(contents)[k := []] && k in zones && |zones[k]| == 1
                && zones - {k} == old(zones) - {k}
                            && OnlyInside(geo, zones[k], old(bytes[..]), bytes[..])
              case Err(StorageFull) => contents == old(contents) - {k} && zones == old(zones) - {k}
                && bytes[..] == old(bytes[..])
              case _ => false
    {
      hide Sane, Holds, OnlyInside;
      var _ := Remove(k);
      assert zones == old(zones) - {k} && contents == old(contents) - {k} && k !in zones by {
        SameKeys();
      }
      var c := ClaimZone();
      if c.Err? {
        return Err(StorageFull);
      }
      var z := c.value;
      SaneCreated(geo, bytes[..], zmap, zones, contents, k, z);
      zones, lens, contents := zones[k := [z]], lens[k := 0], contents[k := []];
      return Ok(());
    }

    lemma SameKeys()
      requires Valid()
      ensures zones.Keys == contents.Keys
    {
    }

    /** Puts `data` at `off`, one piece per zone. */
    method PutPieces(zs: seq<nat>, off: nat, data: seq<Byte>)
      requires Fits(geo, bytes.Length, zs) && off + |data| <= |zs| * Payload(geo)
      modifies bytes
      ensures Wrote(geo, zs, off, data, |data|, old(bytes[..]), bytes[..])
    {
      hide Wrote, Piece, Fits, PieceLen, Place;
      var end, at := off + |data|, off;
      NoneWrote(geo, zs, off, data, bytes[..]);
      while at < end
        invariant off <= at <= end
        invariant Wrote(geo, zs, off, data, at - off, old(bytes[..]), bytes[..])
        decreases end - at
      {
        ghost var mid := bytes[..];
        NextPiece(geo, bytes.Length, zs, at, end);
        var n, devAt := PieceLen(geo, at, end), Place(geo, zs, at);
        PutRange(devAt, data[at - off..at - off + n]);
        OnePiece(geo, zs, off, data, at - off, n, devAt, old(bytes[..]), mid, bytes[..]);
        at := at + n;
      }
    }

    /** Writes all of `data` at `off`, growing the segment; if no zone is left, no segment's bytes change. */
    method Write(k: Key, off: nat, data: seq<Byte>) returns (r: Result<(), IoError>)
      requires Valid() && k in zones
      modifies this, bytes
      ensures Valid() && k in zones && zones == old(zones)[k := zones[k]] && old(zones)[k] <= zones[k]
      ensures match r
              case Ok(_) =>
                && contents == old(contents)[k := Overlay(old(contents)[k], off, data)]
                && |zones[k]| == Max(|old(zones)[k]|, CeilDiv(off + |data|, Payload(geo)))
              case Err(StorageFull) => contents == old(contents) && Clean !in zmap && Unknown !in zmap
              case _ => false
      ensures OnlyInside(geo, zones[k], old(bytes[..]), bytes[..])
    {
      hide Sane, Holds, Fits, OnlyInside, Wrote, CeilDiv;
      SegmentFits(k);
      NoneNeeded(Payload(geo));
      var end, ok := off + |data|, true;
      var needed := CeilDiv(end, Payload(geo));
      NothingMoved(geo, zones[k], bytes[..]);
      if end > 0 && |zones[k]| < needed {
        ok := GrowTo(k, needed);
      }
      if !ok {
        return Err(StorageFull);
      }
      ghost var mid := bytes[..];
      SegmentFits(k);
      if end > 0 {
        NeededCovers(end, |zones[k]|, Payload(geo));
      }
      PutPieces(zones[k], off, data);
      SaneWritten(geo, mid, bytes[..], zmap, zones, contents, k, off, data);
      WroteInside(geo, zones[k], off, data, mid, bytes[..]);
      InsideTwice(geo, zones[k], old(bytes[..]), mid, bytes[..]);
      lens := lens[k := Max(lens[k], end)];
      contents := contents[k := Overlay(contents[k], off, data)];
      return Ok(());
    }

    lemma SegmentFits(k: Key)
      requires Valid() && k in zones
      ensures k in contents && GeoOk(geo) && Fits(geo, bytes.Length, zones[k])
              && Holds(geo, bytes[..], zones[k], contents[k])
      ensures |contents[k]| <= |zones[k]| * Payload(geo)
    {
    }

    /** Reads exactly `n` bytes at `off`; past the written length is an error. */
    method Read(k: Key, off: nat, n: nat) returns (r: Result<seq<Byte>, IoError>)
      requires Valid() && k in zones
      ensures r == if off + n > |contents[k]| then Err(UnexpectedEof) else Ok(contents[k][off..off + n])
    {
      if off + n > lens[k] {
        return Err(UnexpectedEof);
      }
      hide Holds, Fits, Piece, Sane, PieceLen, Place;
      var end, at, buf, zs := off + n, off, [], zones[k];
      SegmentFits(k);
      while at < end
        invariant off <= at <= end <= |contents[k]|
        invariant buf == contents[k][off..at]
        decreases end - at
      {
        NextPiece(geo, bytes.Length, zs, at, end);
        var m, devAt := PieceLen(geo, at, end), Place(geo, zs, at);
        PieceReads(geo, bytes[..], zs, contents[k], at, m, devAt);
        buf := buf + bytes[devAt..devAt + m];
        at := at + m;
      }
      return Ok(buf);
    }
  }
}
