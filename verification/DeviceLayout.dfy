/**
 The layout a device gets when it is formatted, and the checks a mount makes of it.
 */
module DeviceLayout {
  import opened Basics
  import opened Arithmetic
  import opened ZoneIo

  const MIB: nat := 1024 * 1024
  const KEYRING_COPY_LEN: nat := 2 * MIB
  const MAX_SHARD_SLOTS: nat := 1024

  datatype Region = Region(offset: nat, len: nat)

  function End(r: Region): nat {
    r.offset + r.len
  }

  datatype Label = Label(deviceSize: nat, superblock: Region, keyring: Region, keyringCopyLen: nat,
                         shardSuperblocks: Region, scratch: Region, index: Region, indexCopyLen: nat,
                         indexActive: nat, indexLen: (nat, nat), zonesOffset: nat, zoneSize: nat, zoneCount: nat)

  predicate PowerOfTwo(n: nat) {
    n == 1 || (n > 1 && n % 2 == 0 && PowerOfTwo(n / 2))
  }

  function AlignUp(v: nat, to: nat): (r: nat)
    requires to > 0
    ensures v <= r < v + to
  {
    Split(v + to - 1, to);
    CeilDiv(v, to) * to
  }

  /** `None` if the zone size is refused or the device is too small. */
  function PlanLayout(deviceSize: nat, zoneSize: nat, indexCopyLen: Option<nat>): Option<Label> {
    if !PowerOfTwo(zoneSize) || zoneSize < 64 * 1024 then None
    else
      var superblock := Region(BLOCK, 16 * BLOCK);
      var keyring := Region(MIB, 2 * KEYRING_COPY_LEN);
      var shards := Region(End(keyring), MAX_SHARD_SLOTS * BLOCK);
      var scratch := Region(End(shards), BLOCK);
      var copyLen := if indexCopyLen.Some? then indexCopyLen.value else AlignUp(Max(deviceSize / 200, 64 * MIB), MIB);
      var index := Region(AlignUp(End(scratch), MIB), 2 * copyLen);
      var zonesOffset := AlignUp(End(index), Min(zoneSize, 16 * MIB));
      var usable := if deviceSize < zonesOffset + BLOCK then 0 else deviceSize - (zonesOffset + BLOCK);
      var zoneCount := usable / zoneSize;
      if zoneCount < 8 then None
      else Some(Label(deviceSize, superblock, keyring, KEYRING_COPY_LEN, shards, scratch, index, copyLen, 0, (0, 0),
        zonesOffset, zoneSize, zoneCount))
  }

  /** What a mount asks of a label: regions in order and apart, the zones behind them all and inside the device. */
  predicate IsValid(l: Label) {
    && l.indexActive <= 1 && l.zoneSize > BLOCK
    && BLOCK <= l.superblock.offset && End(l.superblock) <= l.keyring.offset
       && End(l.keyring) <= l.shardSuperblocks.offset
    && End(l.shardSuperblocks) <= l.scratch.offset && End(l.scratch) <= l.index.offset && End(l.index) <= l.zonesOffset
    && l.keyring.len == 2 * l.keyringCopyLen && l.index.len == 2 * l.indexCopyLen
    && l.indexLen.0 <= l.indexCopyLen && l.indexLen.1 <= l.indexCopyLen
    && l.zonesOffset + l.zoneCount * l.zoneSize + BLOCK <= l.deviceSize
  }

  function Geo(l: Label): Geometry {
    Geometry(l.zonesOffset, l.zoneSize, l.zoneCount)
  }

  /**
   Every layout planned is one a mount accepts, whose zones leave the regions, and the last block, alone, and of which
   there could not be one more.
   */
  lemma PlannedIsValid(deviceSize: nat, zoneSize: nat, indexCopyLen: Option<nat>)
    requires PlanLayout(deviceSize, zoneSize, indexCopyLen).Some?
    ensures var l := PlanLayout(deviceSize, zoneSize, indexCopyLen).value;
            && IsValid(l) && GeoOk(Geo(l)) && l.zoneCount >= 8 && l.zoneSize == zoneSize && l.deviceSize == deviceSize
            && ZonesEnd(Geo(l)) + BLOCK <= deviceSize < ZonesEnd(Geo(l)) + BLOCK + zoneSize
  {
    var l := PlanLayout(deviceSize, zoneSize, indexCopyLen).value;
    Split(deviceSize - (l.zonesOffset + BLOCK), zoneSize);
  }

  /** Where the zones of a device would begin: behind the index, which by default is half a percent of it a copy. */
  function ZonesBegin(deviceSize: nat, zoneSize: nat, indexCopyLen: Option<nat>): nat
    requires zoneSize > 0
  {
    var copyLen := if indexCopyLen.Some? then indexCopyLen.value else AlignUp(Max(deviceSize / 200, 64 * MIB), MIB);
    var regions := MIB + 2 * KEYRING_COPY_LEN + MAX_SHARD_SLOTS * BLOCK + BLOCK;
    AlignUp(AlignUp(regions, MIB) + 2 * copyLen, Min(zoneSize, 16 * MIB))
  }

  /** A device is refused exactly if the zone size is, or it has no room for eight zones behind its regions. */
  lemma PlannedIff(deviceSize: nat, zoneSize: nat, indexCopyLen: Option<nat>)
    ensures PlanLayout(deviceSize, zoneSize, indexCopyLen).Some? <==>
            && PowerOfTwo(zoneSize) && zoneSize >= 64 * 1024
            && ZonesBegin(deviceSize, zoneSize, indexCopyLen) + 8 * zoneSize + BLOCK <= deviceSize
  {
    hide AlignUp, PowerOfTwo;
    if PowerOfTwo(zoneSize) && zoneSize >= 64 * 1024 {
      var at := ZonesBegin(deviceSize, zoneSize, indexCopyLen);
      EightFit(if deviceSize < at + BLOCK then 0 else deviceSize - (at + BLOCK), zoneSize);
    }
  }

  lemma EightFit(usable: nat, zoneSize: nat)
    requires zoneSize > 0
    ensures usable / zoneSize >= 8 <==> usable >= 8 * zoneSize
  {
    Split(usable, zoneSize);
    if usable / zoneSize < 8 {
      MulMono(usable / zoneSize + 1, 8, zoneSize);
    } else {
      MulMono(8, usable / zoneSize, zoneSize);
    }
  }

  /** No byte of any segment is a byte of a fixed region, of a zone header, or of the label at the end. */
  lemma SegmentsStayInZones(l: Label, zones: seq<nat>, i: nat, z: nat, a: nat)
    requires IsValid(l) && At(Geo(l), zones, i, a) && forall y :: y in zones ==> y < l.zoneCount
    ensures End(l.index) <= a < l.deviceSize - BLOCK
    ensures !(ZoneOffset(Geo(l), z) <= a < ZoneOffset(Geo(l), z) + BLOCK)
  {
    var g := Geo(l);
    assert zones[i / Payload(g)] in zones;
    PlaceInside(g, zones, i);
    if ZoneOffset(g, z) <= a < ZoneOffset(g, z) + BLOCK {
      SameZone(g, z, zones[i / Payload(g)], a);
    }
  }
}
