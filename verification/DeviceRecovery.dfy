/**
 A crash at any moment, and the zone scan of the next mount: what comes back.
 */
module DeviceRecovery {
  import opened Basics
  import opened DeviceModel
  import opened DeviceInvariant
  import opened DeviceClaims
  import opened DeviceIo

  // ---------------------------------------------------------------------------------------------
  // What a surviving header says about the zone before the crash.
  // ---------------------------------------------------------------------------------------------

  ghost predicate Says(z: Zone, k: Key, ord: nat, written: nat) {
    z.head.durable == Some(OwnedZone(k, ord, written))
  }

  lemma HeadKept(before: Zone, after: Zone, vals: set<Option<Header>>)
    requires Survives(before, after) && Among(before.head, vals)
    ensures after.head.durable in vals
  {
  }

  /** An owner named by a header was that zone's owner, or was about to be. */
  lemma SaidBy(s: State, left: seq<Zone>, i: nat, k: Key, ord: nat, w: nat)
    requires ZonesOk(s) && CrashOf(s.disk, left) && i < |left| && Says(left[i], k, ord, w)
    ensures match s.role[i]
            case Claim(l, o, _, stage) => l == k && o == ord && stage == Headed && w == 0
            case Held(l, o) =>
              l == k && o == ord && k in s.segs && ord < |s.segs[k].zones| && s.segs[k].zones[ord] == i
              && left[i].head.durable in LiveHeads(k, ord, s.segs[k])
            case Doomed(l, o) =>
              l == k && o == ord && k in s.dying && (ord > 0 ==> w == 0)
              && (if s.dying[k].stage == FirstPut then
                    Whole(s, k) && ord < |s.holders[s.dying[k].holder.value].zones|
                          && s.holders[s.dying[k].holder.value].zones[ord] == i
                    && (ord == 0 ==> w == s.holders[s.dying[k].holder.value].synced)
                  else ord > 0)
            case _ => false
  {
    hide AllZero, ReadsZero, BodyOk, Whole;
    assert ZoneOk(s, i) && Survives(s.disk[i], left[i]);
    assert MayBe(s.disk[i].head, left[i].head.durable);
  }

  /** A header durably free after the crash sits on a payload of zeroes. */
  lemma FreeIsZero(s: State, left: seq<Zone>, i: nat)
    requires ZonesOk(s) && CrashOf(s.disk, left) && i < |left| && left[i].head.durable == Some(FreeZone)
    ensures AllZero(left[i])
  {
    assert ZoneOk(s, i) && Survives(s.disk[i], left[i]);
    assert MayBe(s.disk[i].head, left[i].head.durable);
    assert AllZero(s.disk[i]) by {
      hide AllZero, ReadsZero, BodyOk, Whole;
    }
    forall j | 0 <= j < |left[i].body|
      ensures Among(left[i].body[j], {0})
    {
      assert Among(s.disk[i].body[j], {0}) && MayBe(s.disk[i].body[j], left[i].body[j].durable);
    }
  }

  // ---------------------------------------------------------------------------------------------
  // The zone lists the scan rebuilds.
  // ---------------------------------------------------------------------------------------------

  lemma {:induction false} Pigeonhole(zs: seq<nat>, n: nat)
    requires forall i :: 0 <= i < |zs| ==> zs[i] < n
    requires forall i, j :: 0 <= i < j < |zs| ==> zs[i] != zs[j]
    ensures |zs| <= n
    decreases n
  {
    if zs == [] {
      return;
    }
    var z := zs[0];
    if n - 1 in zs {
      var p :| 0 <= p < |zs| && zs[p] == n - 1;
      Pigeonhole(zs[..p] + zs[p + 1..], n - 1);
    } else {
      forall i | 0 <= i < |zs|
        ensures zs[i] < n - 1
      {
        assert zs[i] in zs;
      }
      Pigeonhole(zs, n - 1);
    }
  }

  /** A list is the scan's when each place is its lowest claimant and the next place has none. */
  lemma ZonesOfIs(left: seq<Zone>, k: Key, zs: seq<nat>)
    requires |zs| <= |left|
    requires forall i :: 0 <= i < |zs| ==> ZoneFor(left, k, i) == Some(zs[i])
    requires |zs| < |left| ==> ZoneFor(left, k, |zs|).None?
    ensures ZonesOf(left, k) == zs
  {
    var r := ZonesOf(left, k);
    assert forall i :: 0 <= i < |r| ==> ZoneFor(left, k, i) == Some(r[i]);
    assert |r| < |left| ==> ZoneFor(left, k, |r|).None?;
  }

  lemma Sole(left: seq<Zone>, k: Key, ord: nat, z: nat)
    requires z < |left| && Owns(left[z], k, ord)
    requires forall y :: 0 <= y < |left| && Owns(left[y], k, ord) ==> y == z
    ensures ZoneFor(left, k, ord) == Some(z)
  {
  }

  /** A live segment's place is claimed by its own zone and no other. */
  lemma LivePlace(s: State, left: seq<Zone>, k: Key, ord: nat)
    requires Inv(s) && CrashOf(s.disk, left) && k in s.segs && ord < |s.segs[k].zones|
    ensures ZoneFor(left, k, ord) == Some(s.segs[k].zones[ord])
  {
    var z := s.segs[k].zones[ord];
    hide HoldersOk, DyingOk;
    assert SegOk(s, k);
    assert ZoneOk(s, z);
    assert Survives(s.disk[z], left[z]);
    hide BodyOk, LenOk;
    HeadKept(s.disk[z], left[z], LiveHeads(k, ord, s.segs[k]));
    assert Owns(left[z], k, ord);
    forall y | 0 <= y < |left| && Owns(left[y], k, ord)
      ensures y == z
    {
      LiveClaimant(s, left, k, ord, y);
    }
    Sole(left, k, ord, z);
  }

  lemma LiveClaimant(s: State, left: seq<Zone>, k: Key, ord: nat, y: nat)
    requires ZonesOk(s) && SegsOk(s) && CrashOf(s.disk, left) && k in s.segs && y < |left| && Owns(left[y], k, ord)
    ensures ord < |s.segs[k].zones| ==> s.role[y] == Held(k, ord) && y == s.segs[k].zones[ord]
    ensures ord >= |s.segs[k].zones| ==> ord == |s.segs[k].zones| && s.role[y].Claim? && s.role[y].key == k
  {
    SaidBy(s, left, y, k, ord, left[y].head.durable.value.written);
    assert k !in s.dying by {
      assert SegOk(s, k);
    }
    hide ZoneOk, SegOk;
    if s.role[y].Claim? {
      ClaimFacts(s, y);
    }
  }

  lemma LiveZonesDistinct(s: State, k: Key)
    requires ZonesOk(s) && SegsOk(s) && k in s.segs
    ensures |s.segs[k].zones| <= |s.disk|
    ensures forall y: nat :: InMap(s, y) && s.role[y].Claim? ==> |s.segs[k].zones| < |s.disk|
  {
    assert SegOk(s, k);
    hide ZoneOk, SegOk;
    var zs := s.segs[k].zones;
    Pigeonhole(zs, |s.disk|);
    forall y: nat | InMap(s, y) && s.role[y].Claim?
      ensures |zs| < |s.disk|
    {
      Pigeonhole(zs + [y], |s.disk|);
    }
  }

  /** A live segment comes back with its zones, and perhaps the one it was claiming. */
  lemma LiveZones(s: State, left: seq<Zone>, k: Key) returns (z: nat)
    requires Inv(s) && CrashOf(s.disk, left) && k in s.segs
    ensures ZonesOf(left, k) == s.segs[k].zones
            || (ZonesOf(left, k) == s.segs[k].zones + [z] && z < |left| && s.role[z].Claim? && s.role[z].key == k)
  {
    hide ZoneOk, SegOk, HolderOk, Whole;
    z := 0;
    var zs := s.segs[k].zones;
    LiveZonesDistinct(s, k);
    forall i | 0 <= i < |zs|
      ensures ZoneFor(left, k, i) == Some(zs[i])
    {
      LivePlace(s, left, k, i);
    }
    if |zs| < |left| && ZoneFor(left, k, |zs|).Some? {
      z := ZoneFor(left, k, |zs|).value;
      LiveClaimant(s, left, k, |zs|, z);
      if |zs| + 1 < |left| && ZoneFor(left, k, |zs| + 1).Some? {
        LiveClaimant(s, left, k, |zs| + 1, ZoneFor(left, k, |zs| + 1).value);
        assert false;
      }
      ZonesOfIs(left, k, zs + [z]);
    } else {
      ZonesOfIs(left, k, zs);
    }
  }

  /** A key with no segment and no removal: at most the one zone a creation was claiming. */
  lemma AbsentZones(s: State, left: seq<Zone>, k: Key)
    requires Inv(s) && CrashOf(s.disk, left) && k !in s.segs && k !in s.dying
    ensures forall i, ord, w :: 0 <= i < |left| && Says(left[i], k, ord, w) ==>
              ord == 0 && w == 0 && s.role[i].Claim? && s.role[i].key == k && ZonesOf(left, k) == [i]
    ensures ZonesOf(left, k) != [] ==>
              exists i, w :: 0 <= i < |left| && Says(left[i], k, 0, w) && ZonesOf(left, k) == [i]
  {
    hide ZoneOk, SegOk, HolderOk, Whole;
    forall i, ord, w | 0 <= i < |left| && Says(left[i], k, ord, w)
      ensures ord == 0 && w == 0 && s.role[i].Claim? && s.role[i].key == k
    {
      SaidBy(s, left, i, k, ord, w);
      ClaimFacts(s, i);
    }
    forall y, ord: nat | 0 <= y < |left| && Owns(left[y], k, ord)
      ensures ord == 0 && s.role[y].Claim? && s.role[y].key == k
    {
      assert Says(left[y], k, ord, left[y].head.durable.value.written);
    }
    forall i, ord, w | 0 <= i < |left| && Says(left[i], k, ord, w)
      ensures ZonesOf(left, k) == [i]
    {
      Sole(left, k, 0, i);
      ZonesOfIs(left, k, [i]);
    }
    if ZonesOf(left, k) != [] {
      var i := ZonesOf(left, k)[0];
      assert ZoneFor(left, k, 0 + 0) == Some(i);
      assert Says(left[i], k, 0, left[i].head.durable.value.written);
    }
  }

  /** A removal whose first zone is durably gone brings nothing back. */
  lemma GoneZones(s: State, left: seq<Zone>, k: Key)
    requires Inv(s) && CrashOf(s.disk, left) && k in s.dying && s.dying[k].stage != FirstPut
    ensures ZonesOf(left, k) == []
    ensures forall i, ord, w :: 0 <= i < |left| && Says(left[i], k, ord, w) ==> ord > 0 && w == 0
  {
    hide ZoneOk, SegOk, HolderOk, Whole;
    forall i, ord, w | 0 <= i < |left| && Says(left[i], k, ord, w)
      ensures ord > 0 && w == 0
    {
      SaidBy(s, left, i, k, ord, w);
      if s.role[i].Claim? {
        ClaimFacts(s, i);
      } else if s.role[i].Held? {
        HeldKey(s, i);
      }
    }
    forall z | 0 <= z < |left|
      ensures !Owns(left[z], k, 0)
    {
      assert Owns(left[z], k, 0) ==> Says(left[z], k, 0, left[z].head.durable.value.written);
    }
    ZonesOfIs(left, k, []);
  }

  lemma HeldKey(s: State, i: nat)
    requires ZonesOk(s) && SegsOk(s) && i < |s.role| && s.role[i].Held?
    ensures s.role[i].key in s.segs && s.role[i].key !in s.dying
  {
    HeadFacts(s, s.role[i].key, i);
    assert SegOk(s, s.role[i].key);
  }

  /** A removal caught before that brings back every zone, or none. */
  lemma WholeZones(s: State, left: seq<Zone>, k: Key)
    requires Inv(s) && CrashOf(s.disk, left) && k in s.dying && s.dying[k].stage == FirstPut
    ensures Whole(s, k) && s.dying[k].holder.Some? && s.dying[k].holder.value in s.holders
    ensures |s.holders[s.dying[k].holder.value].zones| > 0 && s.holders[s.dying[k].holder.value].zones[0] < |left|
    ensures var zs := s.holders[s.dying[k].holder.value].zones;
            if Owns(left[zs[0]], k, 0) then ZonesOf(left, k) == zs else ZonesOf(left, k) == []
  {
    hide ZonesOk, SegsOk, HoldersOk, ClaimsOk, DyingOk, Whole;
    WholeDistinct(s, k);
    var zs := s.holders[s.dying[k].holder.value].zones;
    forall i | 0 < i < |zs|
      ensures ZoneFor(left, k, i) == Some(zs[i])
    {
      DoomedPlace(s, left, k, i);
    }
    forall y, ord: nat {:trigger Owns(left[y], k, ord)} | 0 <= y < |left| && Owns(left[y], k, ord)
      ensures ord < |zs| && y == zs[ord]
    {
      DoomedClaimant(s, left, k, ord, y);
    }
    AllOrNothing(left, k, zs);
  }

  lemma AllOrNothing(left: seq<Zone>, k: Key, zs: seq<nat>)
    requires 0 < |zs| <= |left| && zs[0] < |left|
    requires forall i :: 0 < i < |zs| ==> ZoneFor(left, k, i) == Some(zs[i])
    requires forall y, ord: nat {:trigger Owns(left[y], k, ord)} :: 0 <= y < |left| && Owns(left[y], k, ord) ==>
             ord < |zs| && y == zs[ord]
    ensures if Owns(left[zs[0]], k, 0) then ZonesOf(left, k) == zs else ZonesOf(left, k) == []
  {
    if Owns(left[zs[0]], k, 0) {
      Sole(left, k, 0, zs[0]);
      assert forall y :: 0 <= y < |left| ==> !Owns(left[y], k, |zs|);
      ZonesOfIs(left, k, zs);
    } else {
      assert forall y :: 0 <= y < |left| ==> !Owns(left[y], k, 0);
      assert ZoneFor(left, k, 0).None?;
      ZonesOfIs(left, k, []);
    }
  }

  lemma WholeDistinct(s: State, k: Key)
    requires DyingOk(s) && k in s.dying && s.dying[k].stage == FirstPut
    ensures Whole(s, k) && s.dying[k].holder.Some? && s.dying[k].holder.value in s.holders
    ensures 0 < |s.holders[s.dying[k].holder.value].zones| <= |s.disk|
    ensures s.holders[s.dying[k].holder.value].zones[0] < |s.disk|
  {
    Pigeonhole(s.holders[s.dying[k].holder.value].zones, |s.disk|);
  }

  lemma DoomedClaimant(s: State, left: seq<Zone>, k: Key, ord: nat, y: nat)
    requires Inv(s) && CrashOf(s.disk, left) && k in s.dying && s.dying[k].stage == FirstPut && y < |left|
             && Owns(left[y], k, ord)
    ensures Whole(s, k) && s.dying[k].holder.Some? && s.dying[k].holder.value in s.holders
    ensures ord < |s.holders[s.dying[k].holder.value].zones| && y == s.holders[s.dying[k].holder.value].zones[ord]
  {
    hide ZoneOk, SegOk, HolderOk, Whole;
    WholeDistinct(s, k);
    SaidBy(s, left, y, k, ord, left[y].head.durable.value.written);
    if s.role[y].Claim? {
      ClaimFacts(s, y);
    } else if s.role[y].Held? {
      HeldKey(s, y);
    }
  }

  lemma DoomedPlace(s: State, left: seq<Zone>, k: Key, ord: nat)
    requires Inv(s) && CrashOf(s.disk, left) && k in s.dying && s.dying[k].stage == FirstPut && Whole(s, k)
    requires 0 < ord < |s.holders[s.dying[k].holder.value].zones|
    ensures ZoneFor(left, k, ord) == Some(s.holders[s.dying[k].holder.value].zones[ord])
  {
    var z := s.holders[s.dying[k].holder.value].zones[ord];
    assert s.role[z] == Doomed(k, ord);
    hide SegOk, HolderOk, Whole;
    assert ZoneOk(s, z) && Survives(s.disk[z], left[z]);
    HeadKept(s.disk[z], left[z], Own(k, ord, 0));
    assert Owns(left[z], k, ord);
    hide ZoneOk;
    forall y | 0 <= y < |left| && Owns(left[y], k, ord)
      ensures y == z
    {
      DoomedClaimant(s, left, k, ord, y);
    }
    Sole(left, k, ord, z);
  }
}
