/**
 Removing a segment keeps the invariant.
 */
module DeviceRemoval {
  import opened DeviceModel
  import opened DeviceInvariant
  import opened DeviceSteps
  import opened DeviceClaims
  import opened DeviceIo

  predicate DoomedOf(s: State, i: nat, k: Key)
    requires i < |s.role|
  {
    s.role[i].Doomed? && s.role[i].key == k
  }

  /** Two removals never share a zone, nor a handle. */
  lemma OtherWhole(s: State, t: State, k: Key, l: Key)
    requires Whole(s, l) && l != k && |t.role| == |s.role| && |t.disk| == |s.disk| == |s.role|
    requires l in t.dying && t.dying[l] == s.dying[l]
    requires s.dying[l].holder.value in t.holders && t.holders[s.dying[l].holder.value] ==
             s.holders[s.dying[l].holder.value]
    requires forall i :: 0 <= i < |s.role| && s.role[i].Doomed? && s.role[i].key != k ==> t.role[i] == s.role[i]
    ensures Whole(t, l)
  {
  }

  // ---------------------------------------------------------------------------------------------
  // The segment leaves the table, and its first zone is marked.
  // ---------------------------------------------------------------------------------------------

  lemma RemoveWhole(s: State, k: Key, h: nat)
    requires Inv(s) && RemoveEnabled(s, Remove(k, h))
    ensures DyingOk(RemoveApply(s, Remove(k, h)))
  {
    var t := RemoveApply(s, Remove(k, h));
    assert SegOk(s, k);
    hide ZonesOk, HoldersOk, SegOk, LenOk;
    assert Whole(t, k);
    forall l | l in t.dying && t.dying[l].stage == FirstPut
      ensures Whole(t, l)
    {
      if l != k {
        OtherWhole(s, t, k, l);
      }
    }
  }

  lemma RemoveZone(s: State, k: Key, h: nat, i: nat)
    requires Inv(s) && RemoveEnabled(s, Remove(k, h)) && i < |s.disk| && ZoneOf(s, i, k)
    ensures ZoneOk(RemoveApply(s, Remove(k, h)), i)
  {
    var t := RemoveApply(s, Remove(k, h));
    RemoveWhole(s, k, h);
    assert ZoneOk(s, i);
    HeadFacts(s, k, i);
    assert SegOk(s, k);
    assert Whole(t, k);
    hide ZonesOk, HoldersOk, SegsOk, SegOk, HolderOk, Whole, BodyOk;
    assert DoomedOk(t, k, s.role[i].ord, i, t.disk[i]);
  }

  lemma RemoveZones(s: State, k: Key, h: nat)
    requires Inv(s) && RemoveEnabled(s, Remove(k, h))
    ensures ZonesOk(RemoveApply(s, Remove(k, h)))
  {
    hide ZoneOk, SegOk, HolderOk, Whole;
    var t, first := RemoveApply(s, Remove(k, h)), s.segs[k].zones[0];
    RemoveWhole(s, k, h);
    NoClaim(s, k);
    assert s.role[first] == Held(k, 0) by {
      assert SegOk(s, k);
      FirstHeld(s, k);
    }
    forall i | 0 <= i < |t.disk|
      ensures ZoneOk(t, i)
    {
      if ZoneOf(s, i, k) {
        RemoveZone(s, k, h, i);
      } else {
        assert ZoneOk(s, i);
        RemoveSame(s, k, h, i);
        ZoneKept(s, t, i);
      }
    }
  }

  lemma RemoveSame(s: State, k: Key, h: nat, i: nat)
    requires Inv(s) && RemoveEnabled(s, Remove(k, h)) && i < |s.role| && !ZoneOf(s, i, k)
    ensures SameFor(s, RemoveApply(s, Remove(k, h)), s.role[i])
  {
    hide ZoneOk, SegOk, HolderOk;
    RemoveWhole(s, k, h);
    NoClaim(s, k);
    if s.role[i].Doomed? {
      DoomedDies(s, i);
      var l := s.role[i].key;
      if Whole(s, l) {
        OtherWhole(s, RemoveApply(s, Remove(k, h)), k, l);
      }
    }
  }

  lemma DoomedDies(s: State, i: nat)
    requires ZonesOk(s) && i < |s.role| && s.role[i].Doomed?
    ensures s.role[i].key in s.dying
  {
    hide Whole, Among;
    assert ZoneOk(s, i);
  }

  lemma FirstHeld(s: State, k: Key)
    requires k in s.segs && SegOk(s, k)
    ensures InMap(s, s.segs[k].zones[0]) && s.role[s.segs[k].zones[0]] == Held(k, 0)
  {
  }

  lemma RemoveHolders(s: State, k: Key, h: nat)
    requires Inv(s) && RemoveEnabled(s, Remove(k, h))
    ensures HoldersOk(RemoveApply(s, Remove(k, h)))
  {
    var t, g := RemoveApply(s, Remove(k, h)), s.segs[k];
    assert SegOk(s, k);
    hide SegsOk, DyingOk, LenOk, Among, Whole;
    forall l | l in t.holders
      ensures HolderOk(t, l)
    {
      forall i | 0 <= i < |t.holders[l].zones|
        ensures KeptFor(t, l, i, t.holders[l].zones[i])
        ensures BodyOk(t.zoneLen, t.holders[l], i, t.disk[t.holders[l].zones[i]])
      {
        if l == h {
          assert ZoneOk(s, g.zones[i]);
          BodySame(s.zoneLen, g, g, i, s.disk[g.zones[i]], t.disk[g.zones[i]]);
        } else {
          hide ZoneOk, BodyOk;
          assert HolderOk(s, l);
          assert KeptFor(s, l, i, s.holders[l].zones[i]);
        }
      }
      assert l != h ==> HolderOk(s, l);
    }
  }

  lemma RemoveSegs(s: State, k: Key, h: nat)
    requires Inv(s) && RemoveEnabled(s, Remove(k, h))
    ensures SegsOk(RemoveApply(s, Remove(k, h)))
  {
    hide ZonesOk, HoldersOk, DyingOk, LenOk;
    var t := RemoveApply(s, Remove(k, h));
    forall l | l in t.segs
      ensures SegOk(t, l)
    {
      assert SegOk(s, l);
    }
  }

  lemma RemoveInv(s: State, k: Key, h: nat)
    requires Inv(s) && RemoveEnabled(s, Remove(k, h))
    ensures Inv(RemoveApply(s, Remove(k, h)))
  {
    RemoveWhole(s, k, h);
    RemoveZones(s, k, h);
    RemoveHolders(s, k, h);
    RemoveSegs(s, k, h);
    hide ZonesOk, HoldersOk, DyingOk, SegsOk;
  }

  // ---------------------------------------------------------------------------------------------
  // Steps on a dying segment's zones.
  // ---------------------------------------------------------------------------------------------

  /** `t` is `s` but for the removal of `k`: its stage, its zones' headers, and its zones already let go. */
  ghost predicate OnlyRemoval(s: State, t: State, k: Key) {
    && |s.disk| == |s.role| == |t.disk| == |t.role| && k in s.dying
    && t == s.(disk := t.disk, role := t.role, dying := t.dying)
    && t.dying.Keys <= s.dying.Keys <= t.dying.Keys + {k}
    && (forall l :: l in t.dying && l != k ==> t.dying[l] == s.dying[l])
    && (k in t.dying ==> t.dying[k].holder == s.dying[k].holder && t.dying[k].stage != FirstPut)
    && (forall i :: 0 <= i < |s.role| && !DoomedOf(s, i, k) ==> t.role[i] == s.role[i] && t.disk[i] == s.disk[i])
    && (forall i :: 0 <= i < |s.role| && DoomedOf(s, i, k) ==>
          && t.disk[i].body == s.disk[i].body
          && (t.role[i] == Limbo(s.dying[k].holder, Marked) || (t.role[i] == s.role[i] && k in t.dying)))
  }

  lemma RemovalHolders(s: State, t: State, k: Key)
    requires OnlyRemoval(s, t, k) && HoldersOk(s)
    ensures HoldersOk(t)
  {
    forall h | h in t.holders
      ensures HolderOk(t, h)
    {
      assert HolderOk(s, h);
      var g := s.holders[h];
      forall i | 0 <= i < |g.zones|
        ensures KeptFor(t, h, i, g.zones[i])
        ensures BodyOk(t.zoneLen, g, i, t.disk[g.zones[i]])
      {
        hide LenOk, BodyOk;
        assert KeptFor(s, h, i, g.zones[i]);
        BodySame(s.zoneLen, g, g, i, s.disk[g.zones[i]], t.disk[g.zones[i]]);
      }
    }
  }

  lemma RemovalSegs(s: State, t: State, k: Key)
    requires OnlyRemoval(s, t, k) && SegsOk(s)
    ensures SegsOk(t)
  {
    hide LenOk;
    forall l | l in t.segs
      ensures SegOk(t, l)
    {
      assert SegOk(s, l);
    }
  }

  lemma RemovalDying(s: State, t: State, k: Key)
    requires OnlyRemoval(s, t, k) && DyingOk(s)
    ensures DyingOk(t)
  {
    forall l | l in t.dying && t.dying[l].stage == FirstPut
      ensures Whole(t, l)
    {
      hide Whole;
      OtherWhole(s, t, k, l);
    }
  }

  lemma RemovalSame(s: State, t: State, k: Key, i: nat)
    requires OnlyRemoval(s, t, k) && ZonesOk(s) && DyingOk(s) && i < |s.role| && !DoomedOf(s, i, k)
    ensures SameFor(s, t, s.role[i])
  {
    RemovalDying(s, t, k);
    hide Whole;
    if s.role[i].Claim? {
      ClaimFacts(s, i);
    }
  }

  lemma RemovalInv(s: State, t: State, k: Key)
    requires Inv(s) && OnlyRemoval(s, t, k)
    requires forall i :: 0 <= i < |s.disk| && DoomedOf(s, i, k) ==> ZoneOk(t, i)
    ensures Inv(t)
  {
    hide ZoneOk, SegOk, HolderOk, Whole, SameFor;
    RemovalHolders(s, t, k);
    RemovalSegs(s, t, k);
    RemovalDying(s, t, k);
    forall i | 0 <= i < |t.disk|
      ensures ZoneOk(t, i)
    {
      if !DoomedOf(s, i, k) {
        assert ZoneOk(s, i);
        RemovalSame(s, t, k, i);
        ZoneKept(s, t, i);
      }
    }
  }

  lemma RemoveFirstOnly(s: State, k: Key)
    requires |s.disk| == |s.role| && RemoveEnabled(s, RemoveFirst(k))
    ensures OnlyRemoval(Flush(s), RemoveApply(s, RemoveFirst(k)), k)
  {
  }

  lemma RemoveEndOnly(s: State, k: Key)
    requires |s.disk| == |s.role| && RemoveEnabled(s, RemoveEnd(k))
    ensures OnlyRemoval(Flush(s), RemoveApply(s, RemoveEnd(k)), k)
  {
  }

  lemma RemoveFirstInv(s: State, k: Key)
    requires Inv(s) && RemoveEnabled(s, RemoveFirst(k))
    ensures Inv(RemoveApply(s, RemoveFirst(k)))
  {
    var u, t := Flush(s), RemoveApply(s, RemoveFirst(k));
    FlushInv(s);
    hide ZoneOk, SegOk, HolderOk, Whole, OnlyRemoval;
    RemoveFirstOnly(s, k);
    forall i | 0 <= i < |u.disk| && DoomedOf(u, i, k)
      ensures ZoneOk(t, i)
    {
      RemoveFirstZone(s, k, i);
    }
    RemovalInv(u, t, k);
  }

  lemma RemoveFirstZone(s: State, k: Key, i: nat)
    requires ZonesOk(s) && RemoveEnabled(s, RemoveFirst(k)) && i < |s.disk| && DoomedOf(s, i, k)
    ensures ZoneOk(RemoveApply(s, RemoveFirst(k)), i)
  {
    hide Whole;
    assert ZoneOk(s, i);
  }

  lemma RemoveRestZone(s: State, k: Key, i: nat)
    requires ZonesOk(s) && RemoveEnabled(s, RemoveRest(k)) && i < |s.disk| && DoomedOf(s, i, k)
    ensures ZoneOk(RemoveApply(s, RemoveRest(k)), i)
  {
    hide Whole;
    assert ZoneOk(s, i);
  }

  lemma RemoveEndZone(s: State, k: Key, i: nat)
    requires ZonesOk(s) && RemoveEnabled(s, RemoveEnd(k)) && i < |s.disk| && DoomedOf(s, i, k)
    ensures ZoneOk(RemoveApply(s, RemoveEnd(k)), i)
  {
    hide Whole;
    assert ZoneOk(s, i);
  }

  lemma RemoveRestInv(s: State, k: Key)
    requires Inv(s) && RemoveEnabled(s, RemoveRest(k))
    ensures Inv(RemoveApply(s, RemoveRest(k)))
  {
    var t := RemoveApply(s, RemoveRest(k));
    hide ZoneOk, SegOk, HolderOk, Whole;
    forall i | 0 <= i < |s.disk| && DoomedOf(s, i, k)
      ensures ZoneOk(t, i)
    {
      RemoveRestZone(s, k, i);
    }
    RemovalInv(s, t, k);
  }

  lemma RemoveEndInv(s: State, k: Key)
    requires Inv(s) && RemoveEnabled(s, RemoveEnd(k))
    ensures Inv(RemoveApply(s, RemoveEnd(k)))
  {
    var u, t := Flush(s), RemoveApply(s, RemoveEnd(k));
    FlushInv(s);
    hide ZoneOk, SegOk, HolderOk, Whole, OnlyRemoval;
    RemoveEndOnly(s, k);
    forall i | 0 <= i < |u.disk| && DoomedOf(u, i, k)
      ensures ZoneOk(t, i)
    {
      RemoveEndZone(s, k, i);
    }
    RemovalInv(u, t, k);
  }

  lemma CloseWhole(s: State, h: nat)
    requires Inv(s) && RemoveEnabled(s, Close(h))
    ensures forall k :: Whole(s, k) ==> Whole(RemoveApply(s, Close(h)), k)
  {
    hide ZonesOk, SegsOk, HoldersOk, ClaimsOk;
  }

  lemma CloseZone(s: State, h: nat, i: nat)
    requires Inv(s) && RemoveEnabled(s, Close(h)) && i < |s.disk|
    ensures ZoneOk(RemoveApply(s, Close(h)), i)
  {
    CloseWhole(s, h);
    hide HolderOk, SegOk, Whole;
    assert ZoneOk(s, i);
    ZoneKept(s, RemoveApply(s, Close(h)), i);
  }

  lemma CloseTables(s: State, h: nat)
    requires Inv(s) && RemoveEnabled(s, Close(h))
    ensures SegsOk(RemoveApply(s, Close(h))) && HoldersOk(RemoveApply(s, Close(h)))
  {
    hide ZoneOk, Whole;
    var t := RemoveApply(s, Close(h));
    assert SegsOk(t) by {
      hide HolderOk, LenOk;
      assert forall k :: k in s.segs ==> SegOk(s, k);
    }
    assert HoldersOk(t) by {
      hide SegOk, LenOk, BodyOk;
      assert forall g :: g in s.holders ==> HolderOk(s, g);
    }
  }

  lemma CloseInv(s: State, h: nat)
    requires Inv(s) && RemoveEnabled(s, Close(h))
    ensures Inv(RemoveApply(s, Close(h)))
  {
    var t := RemoveApply(s, Close(h));
    CloseWhole(s, h);
    CloseTables(s, h);
    hide ZoneOk, SegsOk, HoldersOk, Whole;
    forall i | 0 <= i < |t.disk|
      ensures ZoneOk(t, i)
    {
      CloseZone(s, h, i);
    }
  }

  lemma RemoveStep(s: State, a: RemoveOp)
    requires Inv(s) && RemoveEnabled(s, a)
    ensures Inv(RemoveApply(s, a))
  {
    hide Inv;
    match a
    case Remove(k, h) => RemoveInv(s, k, h);
    case RemoveFirst(k) => RemoveFirstInv(s, k);
    case RemoveRest(k) => RemoveRestInv(s, k);
    case RemoveEnd(k) => RemoveEndInv(s, k);
    case Close(h) => CloseInv(s, h);
  }
}
