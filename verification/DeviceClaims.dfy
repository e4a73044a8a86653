/**
 Claiming a zone, and freeing one, keep the invariant.
 */
module DeviceClaims {
  import opened DeviceModel
  import opened DeviceInvariant
  import opened DeviceSteps

  lemma MakeInv(s: State, k: Key, z: nat)
    requires Inv(s) && ClaimEnabled(s, Make(k, z))
    ensures Inv(ClaimApply(s, Make(k, z)))
  {
    var t := ClaimApply(s, Make(k, z));
    assert ZoneOk(t, z) by {
      assert ZoneOk(s, z);
    }
    assert ClaimsOk(t) by {
      hide ZonesOk, SegsOk, HoldersOk, DyingOk;
    }
    hide ZoneOk, SegOk, HolderOk, Whole;
    LocalInv(s, t, z);
  }

  lemma ZeroedZone(z: Zone)
    ensures ReadsZero(ZeroZone(z)) && |ZeroZone(z).body| == |z.body|
    ensures AllZero(z) ==> AllZero(ZeroZone(z))
  {
  }

  lemma ZeroClaimInv(s: State, z: nat)
    requires Inv(s) && ClaimEnabled(s, ZeroClaim(z))
    ensures Inv(ClaimApply(s, ZeroClaim(z)))
  {
    var t := ClaimApply(s, ZeroClaim(z));
    assert ZoneOk(t, z) by {
      assert ZoneOk(s, z);
      ZeroedZone(s.disk[z]);
    }
    hide ZoneOk, SegOk, HolderOk, Whole;
    LocalInv(s, t, z);
  }

  lemma HeadClaimInv(s: State, z: nat)
    requires Inv(s) && ClaimEnabled(s, HeadClaim(z))
    ensures Inv(ClaimApply(s, HeadClaim(z)))
  {
    var t := ClaimApply(s, HeadClaim(z));
    assert ZoneOk(t, z) by {
      assert ZoneOk(s, z);
      FlushZero(s.disk[z]);
    }
    hide ZoneOk, SegOk, HolderOk, Whole;
    LocalInv(s, t, z);
  }

  lemma ZeroFreedInv(s: State, z: nat)
    requires Inv(s) && FreeEnabled(s, ZeroFreed(z))
    ensures Inv(FreeApply(s, ZeroFreed(z)))
  {
    var t := FreeApply(s, ZeroFreed(z));
    assert ZoneOk(t, z) by {
      assert ZoneOk(s, z);
      ZeroedZone(s.disk[z]);
    }
    hide ZoneOk, SegOk, HolderOk, Whole;
    LocalInv(s, t, z);
  }

  lemma SyncFreedInv(s: State, z: nat)
    requires Inv(s) && FreeEnabled(s, SyncFreed(z))
    ensures Inv(FreeApply(s, SyncFreed(z)))
  {
    var u := Flush(s);
    FlushInv(s);
    var t := FreeApply(s, SyncFreed(z));
    assert ZoneOk(t, z) && Loose(u, z) by {
      assert ZoneOk(s, z);
      FlushZero(s.disk[z]);
    }
    hide ZoneOk, SegOk, HolderOk, Whole;
    LocalInv(u, t, z);
  }

  lemma MarkFreeInv(s: State, z: nat)
    requires Inv(s) && FreeEnabled(s, MarkFree(z))
    ensures Inv(FreeApply(s, MarkFree(z)))
  {
    var t := FreeApply(s, MarkFree(z));
    assert ZoneOk(t, z) && Loose(s, z) by {
      assert ZoneOk(s, z);
    }
    hide ZoneOk, SegOk, HolderOk, Whole;
    LocalInv(s, t, z);
  }

  // ---------------------------------------------------------------------------------------------
  // Growing a segment.
  // ---------------------------------------------------------------------------------------------

  /** A live segment's zone stays right while the segment changes in nothing the zone depends on. */
  lemma HeldKept(s: State, t: State, k: Key, ord: nat, i: nat, z: Zone)
    requires HeldOk(s, k, ord, i, z) && t.zoneLen == s.zoneLen && k in t.segs
    requires ord < |t.segs[k].zones| && t.segs[k].zones[ord] == i
    requires t.segs[k] == s.segs[k].(zones := t.segs[k].zones, growing := t.segs[k].growing)
    ensures HeldOk(t, k, ord, i, z)
  {
    hide Among;
    SameBody(s.zoneLen, s.segs[k], t.segs[k], ord, z);
  }

  lemma ClaimFacts(s: State, z: nat)
    requires ZonesOk(s) && z < |s.role| && s.role[z].Claim?
    ensures s.role[z].key !in s.dying
    ensures if s.role[z].key in s.segs then s.segs[s.role[z].key].growing
            && s.role[z].ord == |s.segs[s.role[z].key].zones|
            else s.role[z].ord == 0
  {
    hide Among, AllZero, ReadsZero;
    assert ZoneOk(s, z);
  }

  lemma NoClaim(s: State, k: Key)
    requires ZonesOk(s) && k in s.segs && !s.segs[k].growing
    ensures forall i :: 0 <= i < |s.role| && s.role[i].Claim? ==> s.role[i].key != k
  {
    forall i | 0 <= i < |s.role| && s.role[i].Claim?
      ensures s.role[i].key != k
    {
      ClaimFacts(s, i);
    }
  }

  lemma SetGrowing(s: State, k: Key)
    requires Inv(s) && k in s.segs && !s.segs[k].growing
    ensures Inv(s.(segs := s.segs[k := s.segs[k].(growing := true)]))
  {
    var t := s.(segs := s.segs[k := s.segs[k].(growing := true)]);
    NoClaim(s, k);
    forall i | 0 <= i < |s.disk| && ZoneOf(s, i, k)
      ensures ZoneOk(t, i)
    {
      hide SegOk, HolderOk, Whole, BodyOk, Among;
      assert ZoneOk(s, i);
      HeldKept(s, t, k, s.role[i].ord, i, s.disk[i]);
    }
    assert SegOk(s, k);
    hide ZoneOk, HolderOk, Whole;
    OnlySegInv(s, t, k);
  }

  lemma PickedOk(u: State, k: Key, z: nat)
    requires z < |u.disk| == |u.role| && u.role[z].Free? && ZoneOk(u, z)
    requires k in u.segs && u.segs[k].growing && k !in u.dying
    ensures ClaimOk(u, k, |u.segs[k].zones|, u.role[z].clean, Picked, u.disk[z])
  {
  }

  lemma GrowInv(s: State, k: Key, z: nat)
    requires Inv(s) && ClaimEnabled(s, Grow(k, z))
    ensures Inv(ClaimApply(s, Grow(k, z)))
  {
    var u := s.(segs := s.segs[k := s.segs[k].(growing := true)]);
    var t := ClaimApply(s, Grow(k, z));
    SetGrowing(s, k);
    NoClaim(s, k);
    assert ZoneOk(t, z) by {
      hide SegsOk, HoldersOk, DyingOk, AllZero, Among;
      assert ZoneOk(u, z);
      PickedOk(u, k, z);
    }
    hide ZoneOk, SegOk, HolderOk, Whole;
    LocalInv(u, t, z);
  }

  lemma LongerFits(zoneLen: nat, g: Seg, z: nat)
    requires LenOk(zoneLen, g)
    ensures LenOk(zoneLen, g.(zones := g.zones + [z], growing := false))
  {
    assert (|g.zones| + 1) * zoneLen == |g.zones| * zoneLen + zoneLen;
  }

  /** The claimed zone, once flushed, is its segment's next place, all zero. */
  lemma ClaimedZone(s: State, z: nat)
    requires Inv(s) && ClaimEnabled(s, SyncClaim(z))
    ensures var t := ClaimApply(s, SyncClaim(z));
            HeldOk(t, s.role[z].key, s.role[z].ord, z, t.disk[z])
  {
    var t, k, ord := ClaimApply(s, SyncClaim(z)), s.role[z].key, s.role[z].ord;
    assert ZoneOk(s, z);
    var g := t.segs[k];
    if k in s.segs {
      assert SegOk(s, k);
      forall j | 0 <= j < s.zoneLen
        ensures At(g.base, g.log, s.zoneLen, ord, j) == 0
      {
        BeyondIsZero(g.base, g.log, g.baseLen, s.zoneLen, ord, j);
      }
    }
    hide ZonesOk, SegsOk, HoldersOk, DyingOk, SegOk, BodyOk;
    FreshBody(s.zoneLen, g, ord, s.disk[z]);
  }

  lemma SyncClaimSegs(s: State, z: nat)
    requires Inv(s) && ClaimEnabled(s, SyncClaim(z))
    ensures SegsOk(ClaimApply(s, SyncClaim(z)))
  {
    var u, t, k := Flush(s), ClaimApply(s, SyncClaim(z)), s.role[z].key;
    FlushInv(s);
    ClaimFacts(s, z);
    hide ZonesOk, HoldersOk, DyingOk;
    forall l | l in t.segs
      ensures SegOk(t, l)
    {
      hide LenOk;
      if l != k {
        assert SegOk(u, l);
      } else if k in u.segs {
        assert SegOk(u, k);
        LongerFits(u.zoneLen, u.segs[k], z);
      } else {
        EmptyLen(u.zoneLen, z);
      }
    }
  }

  lemma EmptyLen(zoneLen: nat, z: nat)
    ensures LenOk(zoneLen, Seg([z], [], 0, [], 0, 0, Unsynced, false))
  {
  }

  lemma SyncClaimZones(s: State, z: nat)
    requires Inv(s) && ClaimEnabled(s, SyncClaim(z))
    ensures ZonesOk(ClaimApply(s, SyncClaim(z)))
  {
    var u, t, k := Flush(s), ClaimApply(s, SyncClaim(z)), s.role[z].key;
    FlushInv(s);
    ClaimedZone(s, z);
    SyncClaimSegs(s, z);
    forall i | 0 <= i < |t.disk|
      ensures ZoneOk(t, i)
    {
      hide Whole, Among, BodyOk, SegsOk, HoldersOk;
      assert ZoneOk(u, i);
      if i != z {
        if u.role[i].Held? && u.role[i].key == k {
          HeldKept(u, t, k, u.role[i].ord, i, u.disk[i]);
        } else {
          ClaimSame(s, z, i);
          ZoneKept(u, t, i);
        }
      }
    }
  }

  lemma ClaimSame(s: State, z: nat, i: nat)
    requires Inv(s) && ClaimEnabled(s, SyncClaim(z)) && i < |s.role| && i != z
             && !(s.role[i].Held? && s.role[i].key == s.role[z].key)
    ensures SameFor(Flush(s), ClaimApply(s, SyncClaim(z)), s.role[i])
  {
    var u, t := Flush(s), ClaimApply(s, SyncClaim(z));
    FlushInv(s);
    hide ZoneOk, SegOk, HolderOk;
    LocalDying(u, t, z);
  }

  lemma SyncClaimInv(s: State, z: nat)
    requires Inv(s) && ClaimEnabled(s, SyncClaim(z))
    ensures Inv(ClaimApply(s, SyncClaim(z)))
  {
    hide ZoneOk, SegOk, HolderOk, Whole;
    var u, t := Flush(s), ClaimApply(s, SyncClaim(z));
    FlushInv(s);
    SyncClaimZones(s, z);
    SyncClaimSegs(s, z);
    LocalHolders(u, t, z);
    LocalDying(u, t, z);
  }

  lemma ClaimStep(s: State, a: ClaimOp)
    requires Inv(s) && ClaimEnabled(s, a)
    ensures Inv(ClaimApply(s, a))
  {
    hide Inv;
    match a
    case Make(k, z) => MakeInv(s, k, z);
    case Grow(k, z) => GrowInv(s, k, z);
    case ZeroClaim(z) => ZeroClaimInv(s, z);
    case HeadClaim(z) => HeadClaimInv(s, z);
    case SyncClaim(z) => SyncClaimInv(s, z);
  }

  lemma FreeStep(s: State, a: FreeOp)
    requires Inv(s) && FreeEnabled(s, a)
    ensures Inv(FreeApply(s, a))
  {
    hide Inv;
    match a
    case ZeroFreed(z) => ZeroFreedInv(s, z);
    case SyncFreed(z) => SyncFreedInv(s, z);
    case MarkFree(z) => MarkFreeInv(s, z);
  }
}
