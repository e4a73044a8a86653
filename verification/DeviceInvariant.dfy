/**
 What every step on a device, a crash included, keeps.
 */
module DeviceInvariant {
  import opened Basics
  import opened DeviceModel

  /** Every value a crash could leave in the cell is one of `vals`. */
  ghost predicate Among<T(!new)>(c: Cell<T>, vals: set<T>) {
    c.durable in vals && forall v :: v in c.pending ==> v in vals
  }

  /** The payload is zero whatever a crash keeps. */
  ghost predicate AllZero(z: Zone) {
    forall j :: 0 <= j < |z.body| ==> Among(z.body[j], {0})
  }

  /** The payload reads as zero. */
  ghost predicate ReadsZero(z: Zone) {
    forall j :: 0 <= j < |z.body| ==> Cur(z.body[j]) == 0
  }

  function Clean(): set<Option<Header>> {
    {Some(FreeZone), Some(FreeingZone)}
  }

  function Own(k: Key, ord: nat, written: nat): set<Option<Header>> {
    {Some(OwnedZone(k, ord, written))}
  }

  /** The byte as it was at some moment no earlier than the last flush. */
  ghost predicate Seen(zoneLen: nat, g: Seg, k: nat, j: nat, b: Byte) {
    exists m :: g.flushed <= m <= |g.log| && At(g.base, g.log[..m], zoneLen, k, j) == b
  }

  ghost predicate ByteOk(zoneLen: nat, g: Seg, k: nat, j: nat, c: Cell<Byte>) {
    && g.flushed <= |g.log|
    && c.durable == At(g.base, g.log[..g.flushed], zoneLen, k, j)
    && Cur(c) == At(g.base, g.log, zoneLen, k, j)
    && (forall v :: v in c.pending ==> Seen(zoneLen, g, k, j, v))
  }

  /** A zone holds place `k` of a segment: every byte as the segment's writes left it. */
  ghost predicate BodyOk(zoneLen: nat, g: Seg, k: nat, z: Zone) {
    |z.body| == zoneLen && forall j :: 0 <= j < zoneLen ==> ByteOk(zoneLen, g, k, j, z.body[j])
  }

  function FlushedLen(g: Seg): nat
    requires g.flushed <= |g.log|
  {
    LenAfter(g.baseLen, g.log[..g.flushed])
  }

  /** Lengths: what is durable, or about to be, is covered by flushed bytes, and by zones. */
  ghost predicate LenOk(zoneLen: nat, g: Seg) {
    && g.flushed <= |g.log|
    && g.synced <= FlushedLen(g)
    && |g.base| <= |g.zones|
    && Len(g) <= Capacity(zoneLen, g)
    && match g.sync
       case Unsynced => true
       case Loaded(l) => g.synced <= l <= Len(g)
       case DataDone(l) => g.synced <= l <= FlushedLen(g)
       case HeadPut(l) => g.synced <= l <= FlushedLen(g)
  }

  /** The headers a live segment's zone may carry. */
  function LiveHeads(k: Key, ord: nat, g: Seg): set<Option<Header>> {
    if ord > 0 then Own(k, ord, 0)
    else if g.sync.HeadPut? then Own(k, 0, g.synced) + Own(k, 0, g.sync.len)
    else Own(k, 0, g.synced)
  }

  ghost predicate ClaimOk(s: State, k: Key, ord: nat, clean: bool, stage: ClaimStage, z: Zone) {
    && k !in s.dying
    && (if k in s.segs then s.segs[k].growing && ord == |s.segs[k].zones| else ord == 0)
    && Among(z.head, (if clean then Clean() else {None}) + (if stage == Headed then Own(k, ord, 0) else {}))
    && (stage == Headed ==> Cur(z.head) == Some(OwnedZone(k, ord, 0)))
    && (clean ==> AllZero(z) && stage != Zeroing)
    && (stage != Picked ==> ReadsZero(z))
  }

  ghost predicate HeldOk(s: State, k: Key, ord: nat, i: nat, z: Zone) {
    && k in s.segs && ord < |s.segs[k].zones| && s.segs[k].zones[ord] == i
    && Among(z.head, LiveHeads(k, ord, s.segs[k]))
    && (ord == 0 && s.segs[k].sync.HeadPut? ==> Cur(z.head) == Some(OwnedZone(k, 0, s.segs[k].sync.len)))
    && BodyOk(s.zoneLen, s.segs[k], ord, z)
  }

  /** The removed segment a removal still holds in memory. */
  ghost predicate Whole(s: State, k: Key) {
    && k in s.dying && s.dying[k].stage == FirstPut
    && s.dying[k].holder.Some? && s.dying[k].holder.value in s.holders
    && s.holders[s.dying[k].holder.value].sync.Unsynced?
    && |s.holders[s.dying[k].holder.value].zones| > 0
    && (forall i :: 0 <= i < |s.holders[s.dying[k].holder.value].zones| ==>
          InMap(s, s.holders[s.dying[k].holder.value].zones[i])
          && s.role[s.holders[s.dying[k].holder.value].zones[i]] == Doomed(k, i))
  }

  ghost predicate DoomedOk(s: State, k: Key, ord: nat, i: nat, z: Zone) {
    && k in s.dying
    && match s.dying[k].stage
       case FirstPut =>
         && Whole(s, k)
         && ord < |s.holders[s.dying[k].holder.value].zones| && s.holders[s.dying[k].holder.value].zones[ord] == i
         && (if ord > 0 then Among(z.head, Own(k, ord, 0))
             else Among(z.head, Own(k, 0, s.holders[s.dying[k].holder.value].synced) + {Some(FreeingZone)})
                  && Cur(z.head) == Some(FreeingZone))
       case FirstGone => ord > 0 && Among(z.head, Own(k, ord, 0))
       case RestPut =>
         && ord > 0 && Among(z.head, Own(k, ord, 0) + {Some(FreeingZone)})
         && Cur(z.head) == Some(FreeingZone)
  }

  ghost predicate LimboOk(s: State, h: Option<nat>, free: FreeStage, z: Zone) {
    && Among(z.head, {Some(FreeingZone)})
    && (free != Marked ==> h.None?)
    && (free == ZeroPut ==> ReadsZero(z))
    && (free == ZeroDone ==> AllZero(z))
  }

  /** What one zone's blocks may hold, by the part it plays. */
  ghost predicate ZoneOk(s: State, i: nat)
    requires i < |s.disk| == |s.role|
  {
    && |s.disk[i].body| == s.zoneLen
    && match s.role[i]
       case Free(clean) =>
         if clean then AllZero(s.disk[i]) && Among(s.disk[i].head, Clean()) else Among(s.disk[i].head, {None})
       case Claim(k, ord, clean, stage) => ClaimOk(s, k, ord, clean, stage, s.disk[i])
       case Held(k, ord) => HeldOk(s, k, ord, i, s.disk[i])
       case Doomed(k, ord) => DoomedOk(s, k, ord, i, s.disk[i])
       case Limbo(h, free) => LimboOk(s, h, free, s.disk[i])
  }

  ghost predicate ZonesOk(s: State) {
    && s.zoneLen > 0 && |s.disk| == |s.role|
    && (forall i :: 0 <= i < |s.disk| ==> ZoneOk(s, i))
  }

  ghost predicate SegOk(s: State, k: Key)
    requires k in s.segs
  {
    && k !in s.dying
    && LenOk(s.zoneLen, s.segs[k])
    && |s.segs[k].zones| > 0
    && (forall i :: 0 <= i < |s.segs[k].zones| ==>
          InMap(s, s.segs[k].zones[i]) && s.role[s.segs[k].zones[i]] == Held(k, i))
  }

  ghost predicate SegsOk(s: State) {
    forall k :: k in s.segs ==> SegOk(s, k)
  }

  /** At most one zone is being claimed for a key at a time. */
  ghost predicate ClaimsOk(s: State) {
    forall y, z ::
      && 0 <= y < |s.role| && 0 <= z < |s.role| && s.role[y].Claim? && s.role[z].Claim?
      && s.role[y].key == s.role[z].key
      ==> y == z
  }

  /** A zone of a removed segment still open: freed by nobody yet. */
  ghost predicate KeptFor(s: State, h: nat, i: nat, z: nat) {
    && InMap(s, z)
    && match s.role[z]
       case Limbo(g, free) => g == Some(h) && free == Marked
       case Doomed(k, ord) => ord == i && k in s.dying && s.dying[k].holder == Some(h)
       case _ => false
  }

  ghost predicate HolderOk(s: State, h: nat)
    requires h in s.holders
  {
    && LenOk(s.zoneLen, s.holders[h])
    && (forall i :: 0 <= i < |s.holders[h].zones| ==>
          KeptFor(s, h, i, s.holders[h].zones[i])
          && BodyOk(s.zoneLen, s.holders[h], i, s.disk[s.holders[h].zones[i]]))
  }

  ghost predicate HoldersOk(s: State) {
    forall h :: h in s.holders ==> HolderOk(s, h)
  }

  /** A removal whose first zone is not yet durably gone has all its zones, and no other removal's handle. */
  ghost predicate DyingOk(s: State) {
    && (forall k :: k in s.dying && s.dying[k].stage == FirstPut ==> Whole(s, k))
    && (forall k :: k in s.dying && s.dying[k].holder.Some? ==> s.dying[k].holder.value in s.holders)
    && (forall k, l ::
      k in s.dying && l in s.dying && s.dying[k].holder.Some? && s.dying[k].holder == s.dying[l].holder ==> k == l)
  }

  ghost predicate Inv(s: State) {
    ZonesOk(s) && SegsOk(s) && ClaimsOk(s) && HoldersOk(s) && DyingOk(s)
  }

  lemma FormattedInv(s: State)
    requires Formatted(s)
    ensures Inv(s)
  {
  }

  // ---------------------------------------------------------------------------------------------
  // Facts about bytes and lengths.
  // ---------------------------------------------------------------------------------------------

  lemma {:induction false} LenGrows(b: nat, log: seq<Wr>, i: nat)
    requires i <= |log|
    ensures LenAfter(b, log[..i]) <= LenAfter(b, log)
    decreases |log|
  {
    if i < |log| {
      LenGrows(b, log[..|log| - 1], i);
      assert log[..|log| - 1][..i] == log[..i];
    } else {
      assert log[..i] == log;
    }
  }

  lemma LenPush(b: nat, log: seq<Wr>, w: Wr)
    ensures LenAfter(b, log + [w]) == Max(LenAfter(b, log), w.off + |w.data|)
  {
    assert (log + [w])[..|log|] == log;
  }

  lemma AtPush(base: seq<seq<Byte>>, log: seq<Wr>, w: Wr, zoneLen: nat, k: nat, j: nat)
    ensures At(base, log + [w], zoneLen, k, j) ==
            if Covers(w, k * zoneLen + j) then w.data[k * zoneLen + j - w.off] else At(base, log, zoneLen, k, j)
  {
    assert (log + [w])[..|log|] == log;
  }

  lemma FlushByte(zoneLen: nat, g: Seg, k: nat, j: nat, c: Cell<Byte>)
    requires ByteOk(zoneLen, g, k, j, c)
    ensures ByteOk(zoneLen, FlushSeg(g), k, j, Flushed(c))
  {
    assert g.log[..|g.log|] == g.log;
  }

  lemma FlushBody(zoneLen: nat, g: Seg, k: nat, z: Zone)
    requires BodyOk(zoneLen, g, k, z)
    ensures BodyOk(zoneLen, FlushSeg(g), k, FlushZone(z))
  {
    forall j | 0 <= j < zoneLen
      ensures ByteOk(zoneLen, FlushSeg(g), k, j, FlushZone(z).body[j])
    {
      FlushByte(zoneLen, g, k, j, z.body[j]);
    }
  }

  lemma FlushLen(zoneLen: nat, g: Seg)
    requires LenOk(zoneLen, g)
    ensures LenOk(zoneLen, FlushSeg(g)) && FlushedLen(FlushSeg(g)) == Len(g) && FlushedLen(g) <= Len(g)
  {
    assert g.log[..|g.log|] == g.log;
    LenGrows(g.baseLen, g.log, g.flushed);
  }

  lemma SeenPush(zoneLen: nat, g: Seg, w: Wr, k: nat, j: nat, b: Byte)
    requires g.flushed <= |g.log| && Seen(zoneLen, g, k, j, b)
    ensures Seen(zoneLen, g.(log := g.log + [w]), k, j, b)
  {
    var m :| g.flushed <= m <= |g.log| && At(g.base, g.log[..m], zoneLen, k, j) == b;
    assert (g.log + [w])[..m] == g.log[..m];
  }

  lemma WriteByte(zoneLen: nat, g: Seg, w: Wr, k: nat, j: nat, c: Cell<Byte>, d: Cell<Byte>)
    requires ByteOk(zoneLen, g, k, j, c)
    requires d == if Covers(w, k * zoneLen + j) then Put(c, w.data[k * zoneLen + j - w.off]) else c
    ensures ByteOk(zoneLen, g.(log := g.log + [w]), k, j, d)
  {
    var g' := g.(log := g.log + [w]);
    AtPush(g.base, g.log, w, zoneLen, k, j);
    assert g'.log[..g.flushed] == g.log[..g.flushed];
    assert g'.log[..|g'.log|] == g'.log;
    forall v | v in d.pending
      ensures Seen(zoneLen, g', k, j, v)
    {
      if v in c.pending {
        SeenPush(zoneLen, g, w, k, j, v);
      } else {
        assert At(g'.base, g'.log[..|g'.log|], zoneLen, k, j) == v;
      }
    }
  }

  lemma WriteBody(zoneLen: nat, g: Seg, w: Wr, k: nat, z: Zone)
    requires BodyOk(zoneLen, g, k, z)
    ensures BodyOk(zoneLen, g.(log := g.log + [w]), k, WriteZone(z, w, k * zoneLen))
  {
    forall j | 0 <= j < zoneLen
      ensures ByteOk(zoneLen, g.(log := g.log + [w]), k, j, WriteZone(z, w, k * zoneLen).body[j])
    {
      WriteByte(zoneLen, g, w, k, j, z.body[j], WriteZone(z, w, k * zoneLen).body[j]);
    }
  }

  lemma WriteLen(zoneLen: nat, g: Seg, w: Wr)
    requires LenOk(zoneLen, g) && w.off + |w.data| <= Capacity(zoneLen, g)
    ensures LenOk(zoneLen, g.(log := g.log + [w]))
  {
    LenPush(g.baseLen, g.log, w);
    assert (g.log + [w])[..g.flushed] == g.log[..g.flushed];
  }

  lemma SameBody(zoneLen: nat, g: Seg, h: Seg, k: nat, z: Zone)
    requires BodyOk(zoneLen, g, k, z)
    requires h.base == g.base && h.log == g.log && h.flushed == g.flushed
    ensures BodyOk(zoneLen, h, k, z)
  {
    forall j | 0 <= j < zoneLen
      ensures ByteOk(zoneLen, h, k, j, z.body[j])
    {
      forall v | v in z.body[j].pending
        ensures Seen(zoneLen, h, k, j, v)
      {
        var m :| g.flushed <= m <= |g.log| && At(g.base, g.log[..m], zoneLen, k, j) == v;
        assert h.flushed <= m <= |h.log| && At(h.base, h.log[..m], zoneLen, k, j) == v;
      }
    }
  }

  /** A zone that reads zero is, once flushed, a fresh place of a segment nobody wrote there. */
  lemma FreshBody(zoneLen: nat, g: Seg, k: nat, z: Zone)
    requires |z.body| == zoneLen && ReadsZero(z) && g.flushed == |g.log|
    requires forall j :: 0 <= j < zoneLen ==> At(g.base, g.log, zoneLen, k, j) == 0
    ensures BodyOk(zoneLen, g, k, FlushZone(z))
  {
    assert g.log[..|g.log|] == g.log;
  }

  /** No write reaches past the capacity, so a new place starts all zero. */
  lemma {:induction false} BeyondIsZero(base: seq<seq<Byte>>, log: seq<Wr>, b: nat, zoneLen: nat, k: nat, j: nat)
    requires |base| <= k && LenAfter(b, log) <= k * zoneLen
    ensures At(base, log, zoneLen, k, j) == 0
    decreases |log|
  {
    if log != [] {
      BeyondIsZero(base, log[..|log| - 1], b, zoneLen, k, j);
    }
  }
}
