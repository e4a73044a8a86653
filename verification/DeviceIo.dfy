/**
 Writing and syncing a segment keep the invariant.
 */
module DeviceIo {
  import opened Basics
  import opened DeviceModel
  import opened DeviceInvariant
  import opened DeviceSteps

  // ---------------------------------------------------------------------------------------------
  // Writing.
  // ---------------------------------------------------------------------------------------------

  lemma WriteZoneOk(s: State, k: Key, w: Wr, i: nat)
    requires ZonesOk(s) && i < |s.disk| && ZoneOf(s, i, k) && IoEnabled(s, Write(k, w.off, w.data))
    ensures ZoneOk(IoApply(s, Write(k, w.off, w.data)), i)
  {
    assert ZoneOk(s, i);
    hide BodyOk, Among;
    WriteBody(s.zoneLen, s.segs[k], w, s.role[i].ord, s.disk[i]);
  }

  lemma WriteInv(s: State, k: Key, w: Wr)
    requires Inv(s) && IoEnabled(s, Write(k, w.off, w.data))
    ensures Inv(IoApply(s, Write(k, w.off, w.data)))
  {
    var t := IoApply(s, Write(k, w.off, w.data));
    assert SegOk(s, k);
    hide ZoneOk, SegOk, HolderOk, Whole;
    WriteLen(s.zoneLen, s.segs[k], w);
    forall i | 0 <= i < |s.disk| && ZoneOf(s, i, k)
      ensures ZoneOk(t, i)
    {
      WriteZoneOk(s, k, w, i);
    }
    hide LenOk;
    OnlySegInv(s, t, k);
  }

  // ---------------------------------------------------------------------------------------------
  // Syncing.
  // ---------------------------------------------------------------------------------------------

  /** A zone of a segment whose sync moved on, with the headers that stage allows. */
  lemma SyncZone(s: State, t: State, k: Key, i: nat)
    requires ZonesOk(s) && OnlySeg(s, t, k) && i < |s.disk| && ZoneOf(s, i, k)
    requires t.segs[k] == s.segs[k].(sync := t.segs[k].sync, synced := t.segs[k].synced)
    requires t.disk[i].body == s.disk[i].body
    requires s.role[i].ord > 0 ==> t.disk[i].head == s.disk[i].head
    requires s.role[i].ord == 0 ==> Among(t.disk[i].head, LiveHeads(k, 0, t.segs[k]))
    requires s.role[i].ord == 0 && t.segs[k].sync.HeadPut? ==>
             Cur(t.disk[i].head) == Some(OwnedZone(k, 0, t.segs[k].sync.len))
    ensures ZoneOk(t, i)
  {
    assert ZoneOk(s, i);
    assert HeldOk(s, k, s.role[i].ord, i, s.disk[i]);
    BodySame(s.zoneLen, s.segs[k], t.segs[k], s.role[i].ord, s.disk[i], t.disk[i]);
  }

  lemma BodySame(zoneLen: nat, g: Seg, h: Seg, k: nat, z: Zone, y: Zone)
    requires BodyOk(zoneLen, g, k, z) && y.body == z.body
    requires h.base == g.base && h.log == g.log && h.flushed == g.flushed
    ensures BodyOk(zoneLen, h, k, y)
  {
    SameBody(zoneLen, g, h, k, z);
  }

  /** The first zone's header is as the segment's sync left it. */
  lemma HeadFacts(s: State, k: Key, i: nat)
    requires ZonesOk(s) && i < |s.disk| && ZoneOf(s, i, k)
    ensures k in s.segs && s.role[i].ord < |s.segs[k].zones| && s.segs[k].zones[s.role[i].ord] == i
    ensures Among(s.disk[i].head, LiveHeads(k, s.role[i].ord, s.segs[k]))
    ensures s.role[i].ord == 0 && s.segs[k].sync.HeadPut? ==>
            Cur(s.disk[i].head) == Some(OwnedZone(k, 0, s.segs[k].sync.len))
  {
    assert ZoneOk(s, i);
  }

  lemma SyncLoadInv(s: State, k: Key)
    requires Inv(s) && IoEnabled(s, SyncLoad(k))
    ensures Inv(IoApply(s, SyncLoad(k)))
  {
    var t := IoApply(s, SyncLoad(k));
    assert SegOk(s, k);
    FlushLen(s.zoneLen, s.segs[k]);
    hide ZoneOk, SegOk, HolderOk, Whole;
    forall i | 0 <= i < |s.disk| && ZoneOf(s, i, k)
      ensures ZoneOk(t, i)
    {
      HeadFacts(s, k, i);
      SyncZone(s, t, k, i);
    }
    OnlySegInv(s, t, k);
  }

  lemma SyncDataInv(s: State, k: Key)
    requires Inv(s) && IoEnabled(s, SyncData(k))
    ensures Inv(IoApply(s, SyncData(k)))
  {
    var u, t := Flush(s), IoApply(s, SyncData(k));
    FlushInv(s);
    assert SegOk(s, k);
    FlushLen(s.zoneLen, s.segs[k]);
    hide ZoneOk, SegOk, HolderOk, Whole;
    forall i | 0 <= i < |u.disk| && ZoneOf(u, i, k)
      ensures ZoneOk(t, i)
    {
      HeadFacts(u, k, i);
      SyncZone(u, t, k, i);
    }
    OnlySegInv(u, t, k);
  }

  lemma SyncHeadInv(s: State, k: Key)
    requires Inv(s) && IoEnabled(s, SyncHead(k))
    ensures Inv(IoApply(s, SyncHead(k)))
  {
    var t, first := IoApply(s, SyncHead(k)), s.segs[k].zones[0];
    assert SegOk(s, k);
    hide ZoneOk, SegOk, HolderOk, Whole;
    assert ZoneOf(s, first, k);
    forall i | 0 <= i < |s.disk| && ZoneOf(s, i, k)
      ensures ZoneOk(t, i)
    {
      HeadFacts(s, k, i);
      SyncZone(s, t, k, i);
    }
    OnlySegInv(s, t, k);
  }

  lemma SyncEndInv(s: State, k: Key)
    requires Inv(s) && IoEnabled(s, SyncEnd(k))
    ensures Inv(IoApply(s, SyncEnd(k)))
  {
    var u, t := Flush(s), IoApply(s, SyncEnd(k));
    FlushInv(s);
    assert SegOk(s, k);
    FlushLen(s.zoneLen, s.segs[k]);
    hide ZoneOk, SegOk, HolderOk, Whole;
    forall i | 0 <= i < |u.disk| && ZoneOf(u, i, k)
      ensures ZoneOk(t, i)
    {
      HeadFacts(u, k, i);
      HeadFacts(s, k, i);
      SyncZone(u, t, k, i);
    }
    OnlySegInv(u, t, k);
  }

  lemma IoStep(s: State, a: IoOp)
    requires Inv(s) && IoEnabled(s, a)
    ensures Inv(IoApply(s, a))
  {
    match a
    case Write(k, off, data) => WriteInv(s, k, Wr(off, data));
    case FlushAll => FlushInv(s);
    case SyncLoad(k) => SyncLoadInv(s, k);
    case SyncData(k) => SyncDataInv(s, k);
    case SyncHead(k) => SyncHeadInv(s, k);
    case SyncEnd(k) => SyncEndInv(s, k);
  }
}
