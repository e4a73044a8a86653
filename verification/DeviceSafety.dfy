/**
 The device over whole runs, crashes and remounts included: what is always so, and what a crash brings
 back of every segment.
 */
module DeviceSafety {
  import opened Basics
  import opened DeviceModel
  import opened DeviceInvariant
  import opened DeviceClaims
  import opened DeviceIo
  import opened DeviceRemoval
  import opened DeviceRecovery

  // ---------------------------------------------------------------------------------------------
  // The mount's first look satisfies the invariant again.
  // ---------------------------------------------------------------------------------------------

  /** A header's owner either has the zone in its list, within its capacity, or has no list at all. */
  ghost predicate Placed(zoneLen: nat, left: seq<Zone>, i: nat, k: Key, ord: nat, w: nat) {
    var zs := ZonesOf(left, k);
    if zs == [] then ord > 0 && w == 0
    else ord < |zs| && zs[ord] == i && (ord > 0 ==> w == 0) && w <= |zs| * zoneLen
  }

  lemma LongerCapacity(a: nat, b: nat, zoneLen: nat)
    requires a <= b
    ensures a * zoneLen <= b * zoneLen
  {
  }

  /** Every length a header may carry is within the segment's zones. */
  lemma HeadFits(s: State, k: Key, ord: nat, w: nat)
    requires k in s.segs && SegOk(s, k) && Some(OwnedZone(k, ord, w)) in LiveHeads(k, ord, s.segs[k])
    ensures w <= Capacity(s.zoneLen, s.segs[k]) && (ord > 0 ==> w == 0)
  {
    FlushLen(s.zoneLen, s.segs[k]);
  }

  lemma LivePlaced(s: State, left: seq<Zone>, i: nat, k: Key, ord: nat, w: nat)
    requires Inv(s) && CrashOf(s.disk, left) && i < |left| && Says(left[i], k, ord, w) && k in s.segs
    ensures Placed(s.zoneLen, left, i, k, ord, w)
  {
    var z := LiveZones(s, left, k);
    SaidBy(s, left, i, k, ord, w);
    assert SegOk(s, k);
    hide ZoneOk, HolderOk, Whole, SegOk;
    LongerCapacity(|s.segs[k].zones|, |ZonesOf(left, k)|, s.zoneLen);
    LiveClaimant(s, left, k, ord, i);
    if s.role[i].Held? {
      HeadFits(s, k, ord, w);
    } else {
      LivePlaceOf(s, left, k, i, ord);
    }
  }

  lemma LivePlaceOf(s: State, left: seq<Zone>, k: Key, i: nat, ord: nat)
    requires Inv(s) && CrashOf(s.disk, left) && i < |left| && Owns(left[i], k, ord) && k in s.segs && s.role[i].Claim?
    ensures ZonesOf(left, k) == s.segs[k].zones + [i] && ord == |s.segs[k].zones|
  {
    hide ZoneOk, HolderOk, Whole, SegOk;
    LiveClaimant(s, left, k, ord, i);
    LiveZonesDistinct(s, k);
    var z := LiveZones(s, left, k);
    assert ZoneFor(left, k, ord).Some?;
    assert forall j :: 0 <= j < |ZonesOf(left, k)| ==> ZoneFor(left, k, 0 + j) == Some(ZonesOf(left, k)[j]);
    assert ZonesOf(left, k) != s.segs[k].zones;
  }

  lemma AllPlaced(s: State, left: seq<Zone>, i: nat, k: Key, ord: nat, w: nat)
    requires Inv(s) && CrashOf(s.disk, left) && i < |left| && Says(left[i], k, ord, w)
    ensures Placed(s.zoneLen, left, i, k, ord, w)
  {
    hide ZonesOk, SegsOk, HoldersOk, ClaimsOk, DyingOk, Whole;
    if k in s.segs {
      LivePlaced(s, left, i, k, ord, w);
    } else if k !in s.dying {
      AbsentZones(s, left, k);
    } else if s.dying[k].stage != FirstPut {
      GoneZones(s, left, k);
    } else {
      WholePlaced(s, left, i, k, ord, w);
    }
  }

  lemma WholePlaced(s: State, left: seq<Zone>, i: nat, k: Key, ord: nat, w: nat)
    requires Inv(s) && CrashOf(s.disk, left) && i < |left| && Says(left[i], k, ord, w)
    requires k in s.dying && s.dying[k].stage == FirstPut
    ensures Placed(s.zoneLen, left, i, k, ord, w)
  {
    WholeZones(s, left, k);
    DoomedClaimant(s, left, k, ord, i);
    SaidBy(s, left, i, k, ord, w);
    var h := s.dying[k].holder.value;
    assert HolderOk(s, h);
    FlushLen(s.zoneLen, s.holders[h]);
    hide ZoneOk, SegOk, HolderOk, Whole, LenOk;
    if s.role[i].Claim? {
      ClaimFacts(s, i);
    } else if s.role[i].Held? {
      HeldKey(s, i);
    }
  }

  ghost predicate Settled(zoneLen: nat, left: seq<Zone>) {
    && (forall i :: 0 <= i < |left| ==> |left[i].body| == zoneLen && left[i].head.pending == [])
    && (forall i, j :: 0 <= i < |left| && 0 <= j < zoneLen && j < |left[i].body| ==> left[i].body[j].pending == [])
  }

  ghost predicate Headed(zoneLen: nat, left: seq<Zone>) {
    && (forall i: nat, k, ord, w :: i < |left| && Says(left[i], k, ord, w) ==> Placed(zoneLen, left, i, k, ord, w))
    && (forall i :: 0 <= i < |left| && left[i].head.durable == Some(FreeZone) ==> AllZero(left[i]))
  }

  lemma CrashSettles(s: State, left: seq<Zone>)
    requires Inv(s) && CrashOf(s.disk, left)
    ensures Settled(s.zoneLen, left) && Headed(s.zoneLen, left)
  {
    forall i | 0 <= i < |left|
      ensures |left[i].body| == s.zoneLen && left[i].head.pending == []
      ensures forall j :: 0 <= j < s.zoneLen ==> left[i].body[j].pending == []
    {
      hide SegsOk, HoldersOk, DyingOk, ClaimOk, HeldOk, DoomedOk, LimboOk, AllZero, Among;
      assert ZoneOk(s, i) && Survives(s.disk[i], left[i]);
    }
    hide ZonesOk, SegsOk, HoldersOk, DyingOk, Survives;
    forall i: nat, k, ord, w | i < |left| && Says(left[i], k, ord, w)
      ensures Placed(s.zoneLen, left, i, k, ord, w)
    {
      AllPlaced(s, left, i, k, ord, w);
    }
    forall i | 0 <= i < |left| && left[i].head.durable == Some(FreeZone)
      ensures AllZero(left[i])
    {
      FreeIsZero(s, left, i);
    }
  }

  lemma MountZone(zoneLen: nat, left: seq<Zone>, i: nat)
    requires Settled(zoneLen, left) && Headed(zoneLen, left) && i < |left|
    ensures ZoneOk(Mount(zoneLen, left), i)
  {
    match left[i].head.durable
    case Some(OwnedZone(k, ord, w)) =>
      assert Says(left[i], k, ord, w);
      assert Placed(zoneLen, left, i, k, ord, w);
      hide Headed;
      if ZonesOf(left, k) != [] {
        MountHeld(zoneLen, left, i, k, ord, w);
      } else {
        MountDoomed(zoneLen, left, i, k, ord, w);
      }
    case _ => MountOther(zoneLen, left, i);
  }

  lemma MountOther(zoneLen: nat, left: seq<Zone>, i: nat)
    requires Settled(zoneLen, left) && Headed(zoneLen, left) && i < |left|
    requires left[i].head.durable.Some? ==> !left[i].head.durable.value.OwnedZone?
    ensures ZoneOk(Mount(zoneLen, left), i)
  {
    hide AllZero, ReadsZero;
  }

  lemma MountDoomed(zoneLen: nat, left: seq<Zone>, i: nat, k: Key, ord: nat, w: nat)
    requires Settled(zoneLen, left) && i < |left|
    requires Says(left[i], k, ord, w) && Placed(zoneLen, left, i, k, ord, w) && ZonesOf(left, k) == []
    ensures ZoneOk(Mount(zoneLen, left), i)
  {
    assert FoundRole(left, i) == Doomed(k, ord);
    assert Orphaned(left, k) && k in KeysOn(left);
  }

  lemma MountHeld(zoneLen: nat, left: seq<Zone>, i: nat, k: Key, ord: nat, w: nat)
    requires Settled(zoneLen, left) && i < |left|
    requires Says(left[i], k, ord, w) && Placed(zoneLen, left, i, k, ord, w) && ZonesOf(left, k) != []
    ensures HeldOk(Mount(zoneLen, left), k, ord, i, left[i])
  {
    var t := Mount(zoneLen, left);
    assert k in KeysOn(left);
    assert left[i].head.pending == [] && |left[i].body| == zoneLen;
    assert forall j :: 0 <= j < zoneLen ==> left[i].body[j].pending == [];
    hide Settled, BodyOk;
    var g := t.segs[k];
    assert g.base[ord] == Durable(left[i]);
    FoundBody(zoneLen, g, ord, left[i]);
  }

  /** Nothing is written yet: every byte is the one on disk. */
  lemma FoundBody(zoneLen: nat, g: Seg, ord: nat, z: Zone)
    requires |z.body| == zoneLen && forall j :: 0 <= j < zoneLen ==> z.body[j].pending == []
    requires ord < |g.base| && g.base[ord] == Durable(z) && g.log == [] && g.flushed == 0
    ensures BodyOk(zoneLen, g, ord, z)
  {
  }

  lemma MountSeg(zoneLen: nat, left: seq<Zone>, k: Key)
    requires Headed(zoneLen, left) && k in Mount(zoneLen, left).segs
    ensures SegOk(Mount(zoneLen, left), k)
  {
    var t := Mount(zoneLen, left);
    var zs := ZonesOf(left, k);
    forall i | 0 <= i < |zs|
      ensures zs[i] < |left| && t.role[zs[i]] == Held(k, i)
    {
      assert ZoneFor(left, k, 0 + i) == Some(zs[i]);
    }
    NoOrphans(zoneLen, left, k);
  }

  lemma NoOrphans(zoneLen: nat, left: seq<Zone>, k: Key)
    requires Headed(zoneLen, left) && ZonesOf(left, k) != []
    ensures !Orphaned(left, k)
  {
    forall z | 0 <= z < |left| && FoundRole(left, z).Doomed?
      ensures FoundRole(left, z).key != k
    {
      var h := left[z].head.durable.value;
      assert Says(left[z], h.key, h.ord, h.written);
      assert Placed(zoneLen, left, z, h.key, h.ord, h.written);
    }
  }

  /** Whatever the crash left, the next mount starts from a good state. */
  lemma CrashInv(s: State, left: seq<Zone>)
    requires Inv(s) && CrashOf(s.disk, left)
    ensures Inv(Mount(s.zoneLen, left))
  {
    var t := Mount(s.zoneLen, left);
    assert s.zoneLen > 0;
    hide ZoneOk, SegOk, HolderOk, Whole, Headed, Settled, CrashOf;
    CrashSettles(s, left);
    forall i | 0 <= i < |t.disk|
      ensures ZoneOk(t, i)
    {
      MountZone(s.zoneLen, left, i);
    }
    forall k | k in t.segs
      ensures SegOk(t, k)
    {
      MountSeg(s.zoneLen, left, k);
    }
  }

  lemma StepInv(s: State, a: Step)
    requires Inv(s) && Enabled(s, a)
    ensures Inv(Apply(s, a))
  {
    hide Inv;
    match a
    case ByClaim(b) => ClaimStep(s, b);
    case ByIo(b) => IoStep(s, b);
    case ByRemove(b) => RemoveStep(s, b);
    case ByFree(b) => FreeStep(s, b);
    case Crash(left) => CrashInv(s, left);
  }

  lemma {:induction false} RunInv(s: State, run: seq<Step>)
    requires Inv(s) && Runs(s, run)
    ensures Inv(Final(s, run))
    decreases |run|
  {
    hide Inv;
    if run != [] {
      StepInv(s, run[0]);
      RunInv(Apply(s, run[0]), run[1..]);
    }
  }

  // ---------------------------------------------------------------------------------------------
  // What a crash brings back.
  // ---------------------------------------------------------------------------------------------

  /** Some write since the last flush covers byte `j` of zone `i`. */
  ghost predicate Touched(zoneLen: nat, g: Seg, i: nat, j: nat) {
    exists m :: g.flushed <= m < |g.log| && Covers(g.log[m], i * zoneLen + j)
  }

  /**
   `r` is what a mount makes of segment `g`: the same zones, perhaps with the one being claimed; a length
   that was synced or was being synced, and that flushed bytes and zones cover; every byte as it was at some
   moment since the last flush, and as last written where no write since then covers it.
   */
  ghost predicate Restored(zoneLen: nat, g: Seg, r: Seg) {
    && g.zones <= r.zones && |r.zones| <= |g.zones| + 1
    && (r.baseLen == g.synced || (g.sync.HeadPut? && r.baseLen == g.sync.len)) && g.synced <= r.baseLen
    && g.flushed <= |g.log| && r.baseLen <= FlushedLen(g)
    && r.baseLen <= Capacity(zoneLen, g) && r.synced == r.baseLen && r.log == []
    && |r.base| == |r.zones|
    && (forall i :: 0 <= i < |g.zones| ==> |r.base[i]| == zoneLen)
    && (forall i, j :: 0 <= i < |g.zones| && 0 <= j < zoneLen ==> Seen(zoneLen, g, i, j, r.base[i][j]))
    && (forall i, j :: 0 <= i < |g.zones| && 0 <= j < zoneLen && !Touched(zoneLen, g, i, j) ==>
          r.base[i][j] == At(g.base, g.log, zoneLen, i, j))
  }

  /** An empty segment: a creation whose claim reached the disk. */
  ghost predicate Empty(r: Seg) {
    |r.zones| == 1 && r.baseLen == 0
  }

  /** A segment caught before its removal was durable, back whole. */
  ghost predicate Undone(s: State, k: Key, r: Seg) {
    Whole(s, k) && Restored(s.zoneLen, s.holders[s.dying[k].holder.value], r)
  }

  ghost predicate Recovers(s: State, t: State) {
    && (forall k :: k in s.segs ==> k in t.segs && Restored(s.zoneLen, s.segs[k], t.segs[k]))
    && (forall k :: k in t.segs && k !in s.segs ==>
          (Making(s, k) && Empty(t.segs[k])) || Undone(s, k, t.segs[k]))
  }

  lemma {:induction false} UntouchedAt(zoneLen: nat, g: Seg, i: nat, j: nat, m: nat)
    requires g.flushed <= m <= |g.log| && !Touched(zoneLen, g, i, j)
    ensures At(g.base, g.log[..m], zoneLen, i, j) == At(g.base, g.log, zoneLen, i, j)
    decreases |g.log| - m
  {
    if m == |g.log| {
      assert g.log[..m] == g.log;
    } else {
      UntouchedAt(zoneLen, g, i, j, m + 1);
      assert g.log[..m + 1][..m] == g.log[..m];
      assert !Covers(g.log[m], i * zoneLen + j);
    }
  }

  lemma SeenUntouched(zoneLen: nat, g: Seg, i: nat, j: nat, b: Byte)
    requires Seen(zoneLen, g, i, j, b) && !Touched(zoneLen, g, i, j)
    ensures b == At(g.base, g.log, zoneLen, i, j)
  {
    var m :| g.flushed <= m <= |g.log| && At(g.base, g.log[..m], zoneLen, i, j) == b;
    UntouchedAt(zoneLen, g, i, j, m);
  }

  lemma BytesSeen(zoneLen: nat, g: Seg, i: nat, before: Zone, after: Zone)
    requires BodyOk(zoneLen, g, i, before) && Survives(before, after)
    ensures forall j :: 0 <= j < zoneLen ==> Seen(zoneLen, g, i, j, after.body[j].durable)
  {
    forall j | 0 <= j < zoneLen
      ensures Seen(zoneLen, g, i, j, after.body[j].durable)
    {
      assert ByteOk(zoneLen, g, i, j, before.body[j]);
      assert MayBe(before.body[j], after.body[j].durable);
      assert Seen(zoneLen, g, i, j, before.body[j].durable) by {
        assert At(g.base, g.log[..g.flushed], zoneLen, i, j) == before.body[j].durable;
      }
    }
  }

  /** Lengths and bytes of a segment all of whose zones the scan listed again. */
  lemma FoundRestores(zoneLen: nat, g: Seg, disk: seq<Zone>, left: seq<Zone>, zs: seq<nat>, k: Key, w: nat)
    requires LenOk(zoneLen, g) && |g.zones| > 0 && CrashOf(disk, left)
    requires zs == g.zones || (|zs| == |g.zones| + 1 && g.zones <= zs)
    requires forall i :: 0 <= i < |zs| ==> zs[i] < |left|
    requires forall i :: 0 <= i < |g.zones| ==> BodyOk(zoneLen, g, i, disk[g.zones[i]])
    requires Says(left[zs[0]], k, 0, w) && (w == g.synced || (g.sync.HeadPut? && w == g.sync.len))
    ensures Restored(zoneLen, g, Found(zoneLen, left, zs))
  {
    var r := Found(zoneLen, left, zs);
    FlushLen(zoneLen, g);
    LongerCapacity(|g.zones|, |zs|, zoneLen);
    forall i | 0 <= i < |g.zones|
      ensures |r.base[i]| == zoneLen
      ensures forall j :: 0 <= j < zoneLen ==> Seen(zoneLen, g, i, j, r.base[i][j])
      ensures forall j :: 0 <= j < zoneLen && !Touched(zoneLen, g, i, j) ==>
              r.base[i][j] == At(g.base, g.log, zoneLen, i, j)
    {
      hide LenOk, Touched;
      assert Survives(disk[zs[i]], left[zs[i]]);
      BytesSeen(zoneLen, g, i, disk[zs[i]], left[zs[i]]);
      forall j | 0 <= j < zoneLen && !Touched(zoneLen, g, i, j)
        ensures r.base[i][j] == At(g.base, g.log, zoneLen, i, j)
      {
        SeenUntouched(zoneLen, g, i, j, r.base[i][j]);
      }
    }
  }

  lemma LiveRestored(s: State, left: seq<Zone>, k: Key)
    requires Inv(s) && CrashOf(s.disk, left) && k in s.segs
    ensures k in Mount(s.zoneLen, left).segs && Restored(s.zoneLen, s.segs[k], Mount(s.zoneLen, left).segs[k])
  {
    var g := s.segs[k];
    var z := LiveZones(s, left, k);
    var zs := ZonesOf(left, k);
    assert SegOk(s, k);
    hide HoldersOk, DyingOk;
    forall i | 0 <= i < |g.zones|
      ensures BodyOk(s.zoneLen, g, i, s.disk[g.zones[i]])
    {
      hide Among, Whole, LenOk;
      assert ZoneOk(s, g.zones[i]);
    }
    hide ZoneOk, LenOk, BodyOk, Restored;
    LivePlace(s, left, k, 0);
    var w := left[zs[0]].head.durable.value.written;
    assert Says(left[zs[0]], k, 0, w);
    SaidBy(s, left, zs[0], k, 0, w);
    FoundRestores(s.zoneLen, g, s.disk, left, zs, k, w);
  }

  lemma WholeRestored(s: State, left: seq<Zone>, k: Key)
    requires Inv(s) && CrashOf(s.disk, left) && k in s.dying && s.dying[k].stage == FirstPut
             && k in Mount(s.zoneLen, left).segs
    ensures Undone(s, k, Mount(s.zoneLen, left).segs[k])
  {
    WholeZones(s, left, k);
    var h := s.dying[k].holder.value;
    var g, zs := s.holders[h], ZonesOf(left, k);
    assert HolderOk(s, h) && Whole(s, k);
    hide ZoneOk, SegOk, LenOk, BodyOk, Restored;
    var w := left[zs[0]].head.durable.value.written;
    assert Says(left[zs[0]], k, 0, w);
    SaidBy(s, left, zs[0], k, 0, w);
    FoundRestores(s.zoneLen, g, s.disk, left, zs, k, w);
  }

  /**
   After any crash, each live segment is restored, a segment under removal is whole or gone, and no other key appears.
   */
  lemma CrashRecovers(s: State, left: seq<Zone>)
    requires Inv(s) && CrashOf(s.disk, left)
    ensures Recovers(s, Mount(s.zoneLen, left))
  {
    hide ZonesOk, SegsOk, HoldersOk, ClaimsOk, DyingOk, Undone, Restored, CrashOf;
    var t := Mount(s.zoneLen, left);
    forall k | k in s.segs
      ensures k in t.segs && Restored(s.zoneLen, s.segs[k], t.segs[k])
    {
      LiveRestored(s, left, k);
    }
    forall k | k in t.segs && k !in s.segs
      ensures (Making(s, k) && Empty(t.segs[k])) || Undone(s, k, t.segs[k])
    {
      if k !in s.dying {
        MakingEmpty(s, left, k);
      } else if s.dying[k].stage == FirstPut {
        WholeRestored(s, left, k);
      } else {
        GoneZones(s, left, k);
      }
    }
  }

  lemma MakingEmpty(s: State, left: seq<Zone>, k: Key)
    requires Inv(s) && CrashOf(s.disk, left) && k !in s.segs && k !in s.dying && k in Mount(s.zoneLen, left).segs
    ensures Making(s, k) && Empty(Mount(s.zoneLen, left).segs[k])
  {
    AbsentZones(s, left, k);
    hide ZoneOk, SegOk, HolderOk, Whole;
    var i, w :| 0 <= i < |left| && Says(left[i], k, 0, w) && ZonesOf(left, k) == [i];
    assert s.role[i].Claim?;
  }

  // ---------------------------------------------------------------------------------------------
  // Over every run from a freshly formatted device.
  // ---------------------------------------------------------------------------------------------

  /** A zone durably Free, or one the map calls Clean, holds nothing but zeroes, whatever a crash keeps. */
  ghost predicate FreeZonesZero(s: State) {
    forall i ::
      && 0 <= i < |s.disk| && i < |s.role|
      && (s.disk[i].head.durable == Some(FreeZone) || s.role[i] == Free(true))
      ==> AllZero(s.disk[i])
  }

  /** No zone is in two places, of one live segment or of two. */
  ghost predicate ZonesDisjoint(s: State) {
    forall k, l, i, j ::
      && k in s.segs && l in s.segs && 0 <= i < |s.segs[k].zones| && 0 <= j < |s.segs[l].zones|
      && s.segs[k].zones[i] == s.segs[l].zones[j]
      ==> k == l && i == j
  }

  /** A live segment reads as its writes left it, and an open handle on a removed one still does. */
  ghost predicate ReadsBack(s: State, g: Seg) {
    forall i, j ::
      && 0 <= i < |g.zones| && g.zones[i] < |s.disk|
      && 0 <= j < s.zoneLen && j < |s.disk[g.zones[i]].body|
      ==> Cur(s.disk[g.zones[i]].body[j]) == At(g.base, g.log, s.zoneLen, i, j)
  }

  /** A zone of a removed segment that is open is nobody else's, and nobody's to take. */
  ghost predicate KeptWhileOpen(s: State) {
    forall h, i :: h in s.holders && 0 <= i < |s.holders[h].zones| ==>
      && InMap(s, s.holders[h].zones[i])
      && (s.role[s.holders[h].zones[i]].Limbo? || s.role[s.holders[h].zones[i]].Doomed?)
      && (forall k, j :: k in s.segs && 0 <= j < |s.segs[k].zones| ==> s.segs[k].zones[j] != s.holders[h].zones[i])
  }

  lemma InvFreeZonesZero(s: State)
    requires Inv(s)
    ensures FreeZonesZero(s)
  {
    hide SegsOk, HoldersOk, DyingOk, AllZero, ReadsZero, BodyOk, Whole;
    forall i | 0 <= i < |s.disk| && (s.disk[i].head.durable == Some(FreeZone) || s.role[i] == Free(true))
      ensures AllZero(s.disk[i])
    {
      assert ZoneOk(s, i);
    }
  }

  lemma InvDisjoint(s: State)
    requires Inv(s)
    ensures ZonesDisjoint(s)
  {
    hide ZoneOk, HolderOk, DyingOk, LenOk;
    assert forall k :: k in s.segs ==> SegOk(s, k);
  }

  lemma InvKept(s: State)
    requires Inv(s)
    ensures KeptWhileOpen(s)
  {
    hide ZoneOk, DyingOk, LenOk, BodyOk;
    assert forall k :: k in s.segs ==> SegOk(s, k);
    assert forall h :: h in s.holders ==> HolderOk(s, h);
  }

  lemma InvReads(s: State, k: Key)
    requires Inv(s) && k in s.segs
    ensures ReadsBack(s, s.segs[k]) && Len(s.segs[k]) <= Capacity(s.zoneLen, s.segs[k])
  {
    hide HolderOk, DyingOk, Among, Whole;
    assert SegOk(s, k);
    forall i | 0 <= i < |s.segs[k].zones|
      ensures BodyOk(s.zoneLen, s.segs[k], i, s.disk[s.segs[k].zones[i]])
    {
      assert ZoneOk(s, s.segs[k].zones[i]);
    }
  }

  lemma InvHandleReads(s: State, h: nat)
    requires Inv(s) && h in s.holders
    ensures ReadsBack(s, s.holders[h])
  {
    hide ZoneOk, SegOk, DyingOk, LenOk;
    assert HolderOk(s, h);
  }

  /**
   Over every run of claims, growth, writes, syncs, removals, frees, crashes and remounts, in any
   interleaving: free zones are zero, segments' zones are disjoint, a removed segment's zones wait for its
   handles, every segment, live or removed and open, reads as its writes left it, and its zones cover its length.
   */
  lemma RunsAreSound(s: State, run: seq<Step>)
    requires Formatted(s) && Runs(s, run)
    ensures var t := Final(s, run);
            && FreeZonesZero(t) && ZonesDisjoint(t) && KeptWhileOpen(t)
            && (forall k :: k in t.segs ==> ReadsBack(t, t.segs[k]) && Len(t.segs[k]) <= Capacity(t.zoneLen, t.segs[k]))
            && (forall h :: h in t.holders ==> ReadsBack(t, t.holders[h]))
  {
    FormattedInv(s);
    RunInv(s, run);
    hide Inv, FreeZonesZero, ZonesDisjoint, KeptWhileOpen, ReadsBack;
    var t := Final(s, run);
    InvFreeZonesZero(t);
    InvDisjoint(t);
    InvKept(t);
    forall k | k in t.segs
      ensures ReadsBack(t, t.segs[k]) && Len(t.segs[k]) <= Capacity(t.zoneLen, t.segs[k])
    {
      InvReads(t, k);
    }
    forall h | h in t.holders
      ensures ReadsBack(t, t.holders[h])
    {
      InvHandleReads(t, h);
    }
  }

  /** After every run, a crash at any moment recovers. */
  lemma RunsRecover(s: State, run: seq<Step>, left: seq<Zone>)
    requires Formatted(s) && Runs(s, run) && CrashOf(Final(s, run).disk, left)
    ensures Recovers(Final(s, run), Mount(Final(s, run).zoneLen, left))
  {
    FormattedInv(s);
    RunInv(s, run);
    hide Inv, Recovers;
    CrashRecovers(Final(s, run), left);
  }

  /** A segment only ever written at its end, or beyond. */
  ghost predicate AppendOnly(g: Seg) {
    forall m :: 0 <= m < |g.log| ==> LenAfter(g.baseLen, g.log[..m]) <= g.log[m].off
  }

  lemma {:induction false} LenGrows(baseLen: nat, log: seq<Wr>, n: nat)
    requires n <= |log|
    ensures LenAfter(baseLen, log[..n]) <= LenAfter(baseLen, log)
    decreases |log|
  {
    if n == |log| {
      assert log[..n] == log;
    } else {
      LenGrows(baseLen, log[..|log| - 1], n);
      assert log[..|log| - 1][..n] == log[..n];
    }
  }

  lemma AppendsUntouched(zoneLen: nat, g: Seg, i: nat, j: nat)
    requires AppendOnly(g) && g.flushed <= |g.log| && i * zoneLen + j < FlushedLen(g)
    ensures !Touched(zoneLen, g, i, j)
  {
    forall m | g.flushed <= m < |g.log|
      ensures !Covers(g.log[m], i * zoneLen + j)
    {
      LenGrows(g.baseLen, g.log[..m], g.flushed);
      assert g.log[..m][..g.flushed] == g.log[..g.flushed];
    }
  }

  lemma ZoneInside(zoneLen: nat, n: nat, i: nat, j: nat)
    requires i * zoneLen + j < n * zoneLen
    ensures i < n
  {
    if i >= n {
      LongerCapacity(n, i, zoneLen);
    }
  }

  /**
   After every run and any crash, an append-only segment comes back with a length no shorter than its last sync
   made durable, and with every byte below that length as it was appended.
   */
  lemma AppendsComeBack(s: State, run: seq<Step>, left: seq<Zone>, k: Key)
    requires Formatted(s) && Runs(s, run) && CrashOf(Final(s, run).disk, left)
    requires k in Final(s, run).segs && AppendOnly(Final(s, run).segs[k])
    ensures var t, u := Final(s, run), Mount(Final(s, run).zoneLen, left);
            && k in u.segs && t.segs[k].synced <= Len(u.segs[k]) <= Len(t.segs[k])
            && forall i: nat, j: nat :: j < t.zoneLen && i * t.zoneLen + j < Len(u.segs[k]) ==>
                 At(u.segs[k].base, u.segs[k].log, t.zoneLen, i, j) ==
                    At(t.segs[k].base, t.segs[k].log, t.zoneLen, i, j)
  {
    var t, u := Final(s, run), Mount(Final(s, run).zoneLen, left);
    RunsRecover(s, run, left);
    hide Formatted, Runs, Final, CrashOf, Mount;
    var g, r := t.segs[k], u.segs[k];
    assert Restored(t.zoneLen, g, r);
    assert Len(r) == r.baseLen;
    LenGrows(g.baseLen, g.log, g.flushed);
    forall i: nat, j: nat | j < t.zoneLen && i * t.zoneLen + j < Len(r)
      ensures At(r.base, r.log, t.zoneLen, i, j) == At(g.base, g.log, t.zoneLen, i, j)
    {
      ZoneInside(t.zoneLen, |g.zones|, i, j);
      AppendsUntouched(t.zoneLen, g, i, j);
    }
  }

  /** A segment with nothing written since its last sync comes back exactly: its length and its every byte. */
  lemma SyncedIsExact(zoneLen: nat, g: Seg, r: Seg)
    requires Restored(zoneLen, g, r)
    requires g.flushed == |g.log| && g.synced == Len(g) && !g.sync.HeadPut?
    ensures r.baseLen == Len(g)
    ensures forall i, j :: 0 <= i < |g.zones| && 0 <= j < zoneLen ==>
            At(r.base, r.log, zoneLen, i, j) == At(g.base, g.log, zoneLen, i, j)
  {
    forall i, j | 0 <= i < |g.zones| && 0 <= j < zoneLen
      ensures At(r.base, r.log, zoneLen, i, j) == At(g.base, g.log, zoneLen, i, j)
    {
      assert Seen(zoneLen, g, i, j, r.base[i][j]);
      assert g.log[..|g.log|] == g.log;
    }
  }
}
